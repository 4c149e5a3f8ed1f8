/**
 Preferences and their audit trail over whole runs: no architecture gets a second operator term
 however often a pod is retried, and the annotation settles.
 */
module PreferenceRuns {
  import opened Decimal
  import opened Keys
  import opened Kubernetes
  import opened PodModel
  import opened Configs
  import opened Placement
  import opened Preferences
  import opened Reconciler
  import opened Runs

  // ---------- Preferred terms ----------

  /** The pass gets as far as the configurations, and its update is accepted. */
  predicate Active(p: PodState, i: Pass) {
    && p.Gated() && i.listing.Listed? && Accepted(p, i)
    && !ShouldIgnore(p, i.operatorNamespace, i.cppc, i.listing.matching)
  }

  lemma {:induction false} NoArchPreference(preferred: seq<PreferredTerm>, a: string)
    requires !ArchPreferred(preferred)
    ensures Existing(preferred) == {}
    ensures TermsFor(preferred, a) == 0
  {
    if preferred != [] {
      assert !NamesKey(preferred[0].preference, Arch);
      NoArchValues(preferred[0].preference.expressions);
      assert forall i | 0 <= i < |preferred| - 1 :: preferred[1..][i] == preferred[i + 1];
      NoArchPreference(preferred[1..], a);
    }
  }

  lemma {:induction false} NoArchValues(expressions: seq<Requirement>)
    requires forall i | 0 <= i < |expressions| :: expressions[i].key != Arch
    ensures ArchValues(expressions) == {}
  {
    if expressions != [] {
      NoArchValues(expressions[1..]);
    }
  }

  lemma NewTermsAreArch(preferred: seq<PreferredTerm>, platforms: seq<Platform>)
    requires platforms != []
    ensures ArchPreferred(preferred + NewTerms(platforms, {}))
  {
    var t := PreferredFor(platforms[0]);
    assert (preferred + NewTerms(platforms, {}))[|preferred|] == t;
    assert t.preference.expressions[0].key == Arch;
    assert NamesKey(t.preference, Arch);
  }

  lemma ImagePathKeepsPreferred(p: PodState, i: Pass)
    ensures ImagePath(p, i).directives.preferred == p.directives.preferred
    ensures SourcesText(ImagePath(p, i)) == SourcesText(p)
  {
  }

  /** A pass adds preferences only to a pod that has none for any architecture. */
  lemma PassPreferences(p: PodState, i: Pass)
    ensures Reconcile(p, i).directives.preferred ==
            if Active(p, i) && !ArchPreferred(p.directives.preferred)
            then p.directives.preferred + NewTerms(Platforms(i.Sources()), {})
            else p.directives.preferred
  {
    if Active(p, i) {
      var q := IgnoreRelabel(p, i.operatorNamespace);
      PlaceFirstFrame(q, i.listing.sorted, i.verdict);
      var placed := PlaceFirst(q, i.listing.sorted, i.verdict);
      if ArchPreferred(p.directives.preferred) {
        SkipSourcesFrame(placed, i.Resources());
      } else {
        ApplySourcesTerms(placed, i.Sources());
        NoArchPreference(p.directives.preferred, "");
      }
      ImagePathKeepsPreferred(Prepared(p, i), i);
    }
  }

  /** The pass reaches the configurations, is persisted, and finds platforms. */
  predicate Prefers(p: PodState, i: Pass) {
    Active(p, i) && Platforms(i.Sources()) != []
  }

  /** The first such pass of the run. */
  function FirstPreferring(p: PodState, passes: seq<Pass>): (r: Option<nat>)
    ensures r.Some? ==> r.value < |passes| && passes[r.value].listing.Listed?
    decreases passes
  {
    if passes == [] then None
    else if Prefers(p, passes[0]) then Some(0)
    else
      var rest := FirstPreferring(Reconcile(p, passes[0]), passes[1..]);
      if rest.None? then None else Some(rest.value + 1)
  }

  lemma {:induction false} PreferredStays(p: PodState, passes: seq<Pass>)
    requires ArchPreferred(p.directives.preferred)
    ensures Run(p, passes).directives.preferred == p.directives.preferred
    decreases passes
  {
    if passes != [] {
      PassPreferences(p, passes[0]);
      PreferredStays(Reconcile(p, passes[0]), passes[1..]);
    }
  }

  /** All preferences a run adds are those of that pass. */
  lemma {:induction false} RunPrefersOnce(p: PodState, passes: seq<Pass>)
    requires !ArchPreferred(p.directives.preferred)
    ensures var first := FirstPreferring(p, passes);
            Run(p, passes).directives.preferred ==
            p.directives.preferred
            + if first.None? then [] else NewTerms(Platforms(passes[first.value].Sources()), {})
    decreases passes
  {
    var before := p.directives.preferred;
    assert before + [] == before;
    if passes != [] {
      PassPreferences(p, passes[0]);
      var q := Reconcile(p, passes[0]);
      if FirstPreferring(p, passes) == Some(0) {
        NewTermsAreArch(before, Platforms(passes[0].Sources()));
        PreferredStays(q, passes[1..]);
      } else {
        RunPrefersOnce(q, passes[1..]);
      }
    }
  }

  /** What a node's score gains from the configurations of one pass. */
  function Gain(sorted: seq<Ppc>, cppc: Option<Cppc>, n: Node): int {
    if Arch in n.labels && EffectiveWeight(sorted, cppc, n.labels[Arch]).Some?
    then EffectiveWeight(sorted, cppc, n.labels[Arch]).value else 0
  }

  /** On a pod that prefers no architecture, the configurations add exactly one term for each
      architecture they list, and each node gains exactly the effective weight of its own. */
  lemma AddedOnce(before: seq<PreferredTerm>, sorted: seq<Ppc>, cppc: Option<Cppc>, a: string, n: Node)
    requires !ArchPreferred(before)
    ensures var after := before + NewTerms(Platforms(PpcSources(sorted) + CppcSources(cppc)), {});
            && TermsFor(after, a) == (if EffectiveWeight(sorted, cppc, a).Some? then 1 else 0)
            && Score(after, n) == Score(before, n) + Gain(sorted, cppc, n)
  {
    var platforms := Platforms(PpcSources(sorted) + CppcSources(cppc));
    NoArchPreference(before, a);
    TermsForConcat(before, NewTerms(platforms, {}), a);
    OneTermEach(platforms, {}, a);
    ScoreConcat(before, NewTerms(platforms, {}), n);
    NewTermsScore(platforms, {}, n);
  }

  /** Over any number of retries, and however the configurations change between them: earlier terms
      stay a prefix, no architecture gets two operator terms, and a node's score gains exactly what the
      configurations of the first pass that could apply any give it. */
  lemma RunPreferences(p: PodState, passes: seq<Pass>, a: string, n: Node)
    requires !ArchPreferred(p.directives.preferred)
    ensures p.directives.preferred <= Run(p, passes).directives.preferred
    ensures TermsFor(Run(p, passes).directives.preferred, a) <= 1
    ensures var first := FirstPreferring(p, passes);
            Score(Run(p, passes).directives.preferred, n) ==
            Score(p.directives.preferred, n)
            + if first.None? then 0 else Gain(passes[first.value].listing.sorted, passes[first.value].cppc, n)
  {
    RunPrefersOnce(p, passes);
    var before, first := p.directives.preferred, FirstPreferring(p, passes);
    assert before + [] == before;
    if first.None? {
      NoArchPreference(before, a);
    } else {
      AddedOnce(before, passes[first.value].listing.sorted, passes[first.value].cppc, a, n);
    }
  }

  // ---------- The audit annotation ----------

  ghost predicate IsEntryOf(e: string, sources: seq<Source>) {
    exists s, t, b | s in sources && t in s.platforms :: e == Entry(t, s.name, b)
  }

  predicate Distinct(s: seq<string>) {
    forall i, j | 0 <= i < j < |s| :: s[i] != s[j]
  }

  /** The annotation splits back into the entries it started with, followed by new and pairwise
      distinct entries of the given configurations. */
  ghost predicate Trail(start: seq<string>, text: string, sources: seq<Source>) {
    && start <= EntriesOf(text)
    && var added := EntriesOf(text)[|start|..];
       && Distinct(added)
       && forall e | e in added :: e !in start && IsEntryOf(e, sources)
  }

  /** Names and architectures are free of the separator. */
  predicate CommaFree(sources: seq<Source>) {
    forall s | s in sources :: ',' !in s.name && forall t | t in s.platforms :: ',' !in t.architecture
  }

  lemma EntryCommaFree(t: Platform, name: string, b: bool)
    requires ',' !in t.architecture && ',' !in name
    ensures ',' !in Entry(t, name, b)
  {
    PrintNatIsDigits(if t.weight < 0 then -t.weight else t.weight);
    assert ',' !in Print(t.weight) by {
      var s := PrintNat(if t.weight < 0 then -t.weight else t.weight);
      assert forall i | 0 <= i < |s| :: s[i] != ',';
    }
  }

  lemma TrackedGrows(start: seq<string>, text: string, t: Platform, s: Source, b: bool, sources: seq<Source>)
    requires s in sources && t in s.platforms && CommaFree(sources)
    ensures var after := Tracked(text, Entry(t, s.name, b));
            && EntriesOf(text) <= EntriesOf(after)
            && Entry(t, s.name, b) in EntriesOf(after)
            && (Trail(start, text, sources) ==> Trail(start, after, sources))
  {
    EntryCommaFree(t, s.name, b);
    TrackedEntries(text, Entry(t, s.name, b));
    assert IsEntryOf(Entry(t, s.name, b), sources);
    if Trail(start, text, sources) && Entry(t, s.name, b) !in EntriesOf(text) {
      var added, next := EntriesOf(text)[|start|..], EntriesOf(Tracked(text, Entry(t, s.name, b)))[|start|..];
      assert next == added + [Entry(t, s.name, b)];
      assert forall e | e in added :: e in EntriesOf(text);
      assert forall e | e in start :: e in EntriesOf(text);
    }
  }

  lemma {:induction false} TrackedAllGrows(start: seq<string>, text: string, platforms: seq<Platform>, seen: set<string>, s: Source, sources: seq<Source>)
    requires s in sources && CommaFree(sources)
    requires forall t | t in platforms :: t in s.platforms
    ensures var after := TrackedAll(text, platforms, seen, s.name);
            EntriesOf(text) <= EntriesOf(after) && (Trail(start, text, sources) ==> Trail(start, after, sources))
    decreases platforms
  {
    if platforms != [] {
      var b := platforms[0].architecture !in seen;
      TrackedGrows(start, text, platforms[0], s, b, sources);
      TrackedAllGrows(start, Tracked(text, Entry(platforms[0], s.name, b)), platforms[1..],
                      seen + {platforms[0].architecture}, s, sources);
    }
  }

  lemma {:induction false} SkippedTextGrows(start: seq<string>, text: string, platforms: seq<Platform>, s: Source, sources: seq<Source>)
    requires s in sources && CommaFree(sources)
    requires forall t | t in platforms :: t in s.platforms
    ensures var after := SkippedText(text, platforms, s.name);
            && EntriesOf(text) <= EntriesOf(after)
            && (Trail(start, text, sources) ==> Trail(start, after, sources))
            && forall t | t in platforms :: Entry(t, s.name, false) in EntriesOf(after)
    decreases platforms
  {
    if platforms != [] {
      TrackedGrows(start, text, platforms[0], s, false, sources);
      SkippedTextGrows(start, Tracked(text, Entry(platforms[0], s.name, false)), platforms[1..], s, sources);
    }
  }

  lemma {:induction false} ApplySourcesGrows(start: seq<string>, p: PodState, ss: seq<Source>, sources: seq<Source>)
    requires CommaFree(sources) && forall s | s in ss :: s in sources
    requires Trail(start, SourcesText(p), sources)
    ensures Trail(start, SourcesText(ApplySources(p, ss)), sources)
    ensures EntriesOf(SourcesText(p)) <= EntriesOf(SourcesText(ApplySources(p, ss)))
    decreases ss
  {
    if ss != [] {
      TrackedAllGrows(start, SourcesText(p), ss[0].platforms, Existing(p.directives.preferred), ss[0], sources);
      var q := SetPreferred(p, ss[0].platforms, ss[0].name);
      if SourcesText(p) != "" || ss[0].platforms != [] {
        TrackedAllNonEmpty(SourcesText(p), ss[0].platforms, Existing(p.directives.preferred), ss[0].name);
      }
      assert SourcesText(q) == TrackedAll(SourcesText(p), ss[0].platforms, Existing(p.directives.preferred), ss[0].name);
      ApplySourcesGrows(start, q, ss[1..], sources);
    }
  }

  lemma {:induction false} TrackedAllHas(text: string, platforms: seq<Platform>, seen: set<string>, s: Source, sources: seq<Source>, k: nat)
    requires s in sources && CommaFree(sources) && k < |platforms|
    requires forall t | t in platforms :: t in s.platforms
    ensures Entry(platforms[k], s.name, platforms[k].architecture !in seen + Architectures(platforms[..k])) in
            EntriesOf(TrackedAll(text, platforms, seen, s.name))
    decreases platforms
  {
    var b := platforms[0].architecture !in seen;
    var next, more := Tracked(text, Entry(platforms[0], s.name, b)), seen + {platforms[0].architecture};
    TrackedGrows([], text, platforms[0], s, b, sources);
    if k == 0 {
      assert seen + Architectures(platforms[..0]) == seen;
      TrackedAllGrows([], next, platforms[1..], more, s, sources);
    } else {
      TrackedAllHas(next, platforms[1..], more, s, sources, k - 1);
      assert platforms[..k][1..] == platforms[1..][..k - 1];
      ArchitecturesCons(platforms[..k]);
      assert more + Architectures(platforms[1..][..k - 1]) == seen + Architectures(platforms[..k]);
    }
  }

  lemma PreferredAfter(p: PodState, sources: seq<Source>)
    ensures Existing(ApplySources(p, sources).directives.preferred) ==
            Existing(p.directives.preferred) + Architectures(Platforms(sources))
  {
    ApplySourcesTerms(p, sources);
    var seen, platforms := Existing(p.directives.preferred), Platforms(sources);
    ExistingConcat(p.directives.preferred, NewTerms(platforms, seen));
    ExistingAfter(platforms, seen);
  }

  lemma SourceTells(q: PodState, s: Source, sources: seq<Source>, k: nat)
    requires s in sources && CommaFree(sources) && k < |s.platforms|
    ensures Entry(s.platforms[k], s.name,
                  s.platforms[k].architecture !in Existing(q.directives.preferred) + Architectures(s.platforms[..k])) in
            EntriesOf(SourcesText(SetPreferred(q, s.platforms, s.name)))
  {
    var seen := Existing(q.directives.preferred);
    TrackedAllHas(SourcesText(q), s.platforms, seen, s, sources, k);
    TrackedAllNonEmpty(SourcesText(q), s.platforms, seen, s.name);
  }

  lemma AppliedBetween(p: PodState, before: seq<Source>, s: Source, after: seq<Source>)
    ensures ApplySources(p, before + [s] + after) ==
            ApplySources(SetPreferred(ApplySources(p, before), s.platforms, s.name), after)
  {
    ApplySourcesConcat(p, before, [s] + after);
    assert before + ([s] + after) == before + [s] + after;
    assert ([s] + after)[0] == s && ([s] + after)[1..] == after;
  }

  lemma LaterSourcesKeep(p: PodState, before: seq<Source>, s: Source, after: seq<Source>, e: string)
    requires CommaFree(before + [s] + after)
    requires e in EntriesOf(SourcesText(SetPreferred(ApplySources(p, before), s.platforms, s.name)))
    ensures e in EntriesOf(SourcesText(ApplySources(p, before + [s] + after)))
  {
    var sources, r := before + [s] + after, SetPreferred(ApplySources(p, before), s.platforms, s.name);
    AppliedBetween(p, before, s, after);
    assert forall x | x in after :: x in sources;
    ApplySourcesGrows(EntriesOf(SourcesText(r)), r, after, sources);
  }

  /** What the trail says of each listing, when the configurations are applied: architecture, weight and
      source; and that it was skipped, unless it brought the first preference for its architecture. */
  lemma TrailTells(p: PodState, before: seq<Source>, s: Source, after: seq<Source>, k: nat)
    requires CommaFree(before + [s] + after) && k < |s.platforms|
    ensures var t := s.platforms[k];
            var applied := && t.architecture !in Existing(p.directives.preferred)
                           && t.architecture !in Architectures(Platforms(before)) + Architectures(s.platforms[..k]);
            t.architecture + ":" + Print(t.weight) + ":" + s.name + (if applied then "" else ":skipped") in
            EntriesOf(SourcesText(ApplySources(p, before + [s] + after)))
  {
    var t, q := s.platforms[k], ApplySources(p, before);
    assert s in before + [s] + after;
    PreferredAfter(p, before);
    SourceTells(q, s, before + [s] + after, k);
    var applied := t.architecture !in Existing(q.directives.preferred) + Architectures(s.platforms[..k]);
    LaterSourcesKeep(p, before, s, after, Entry(t, s.name, applied));
  }

  /** And when they are not applied, because the pod has preferences: that every listing was skipped. */
  lemma SkippedTrailTells(p: PodState, sources: seq<Source>, s: Source, t: Platform)
    requires CommaFree(sources) && s in sources && t in s.platforms
    ensures t.architecture + ":" + Print(t.weight) + ":" + s.name + ":skipped" in EntriesOf(SourcesText(SkipSources(p, sources)))
  {
    SkipSourcesGrows(EntriesOf(SourcesText(p)), p, sources, sources);
    assert Entry(t, s.name, false) == t.architecture + ":" + Print(t.weight) + ":" + s.name + ":skipped";
  }

  lemma {:induction false} TrackedAllNonEmpty(text: string, platforms: seq<Platform>, seen: set<string>, source: string)
    requires text != "" || platforms != []
    ensures TrackedAll(text, platforms, seen, source) != ""
    decreases platforms
  {
    if platforms != [] {
      var b := platforms[0].architecture !in seen;
      TrackedAllNonEmpty(Tracked(text, Entry(platforms[0], source, b)), platforms[1..],
                         seen + {platforms[0].architecture}, source);
    }
  }

  lemma {:induction false} SkippedNonEmpty(text: string, platforms: seq<Platform>, source: string)
    requires text != "" || platforms != []
    ensures SkippedText(text, platforms, source) != ""
    decreases platforms
  {
    if platforms != [] {
      SkippedNonEmpty(Tracked(text, Entry(platforms[0], source, false)), platforms[1..], source);
    }
  }

  /** Every listing is recorded as skipped. */
  ghost predicate Saturated(text: string, sources: seq<Source>) {
    forall s, t | s in sources && t in s.platforms :: Entry(t, s.name, false) in EntriesOf(text)
  }

  lemma {:induction false} SkipSourcesGrows(start: seq<string>, p: PodState, ss: seq<Source>, sources: seq<Source>)
    requires CommaFree(sources) && forall s | s in ss :: s in sources
    requires Trail(start, SourcesText(p), sources)
    ensures Trail(start, SourcesText(SkipSources(p, ss)), sources)
    ensures EntriesOf(SourcesText(p)) <= EntriesOf(SourcesText(SkipSources(p, ss)))
    ensures Saturated(SourcesText(SkipSources(p, ss)), ss)
    decreases ss
  {
    if ss != [] {
      var text := SkippedText(SourcesText(p), ss[0].platforms, ss[0].name);
      SkippedTextGrows(start, SourcesText(p), ss[0].platforms, ss[0], sources);
      if SourcesText(p) != "" || ss[0].platforms != [] {
        SkippedNonEmpty(SourcesText(p), ss[0].platforms, ss[0].name);
      }
      var q := WithSourcesText(p, text);
      assert SourcesText(q) == text;
      SkipSourcesGrows(start, q, ss[1..], sources);
      forall s, t | s in ss && t in s.platforms
        ensures Entry(t, s.name, false) in EntriesOf(SourcesText(SkipSources(p, ss)))
      {
        if s in ss[1..] {
        } else {
          assert Entry(t, s.name, false) in EntriesOf(text);
        }
      }
    }
  }

  lemma {:induction false} SkippedFixpoint(text: string, platforms: seq<Platform>, source: string)
    requires forall t | t in platforms :: Entry(t, source, false) in EntriesOf(text)
    ensures SkippedText(text, platforms, source) == text
    decreases platforms
  {
    if platforms != [] {
      assert Tracked(text, Entry(platforms[0], source, false)) == text;
      SkippedFixpoint(text, platforms[1..], source);
    }
  }

  lemma {:induction false} SkipSourcesFixpoint(p: PodState, ss: seq<Source>)
    requires Saturated(SourcesText(p), ss)
    ensures SkipSources(p, ss) == p
    decreases ss
  {
    if ss != [] {
      SkippedFixpoint(SourcesText(p), ss[0].platforms, ss[0].name);
      assert p.annotations == WithSourcesText(p, SourcesText(p)).annotations;
      SkipSourcesFixpoint(p, ss[1..]);
    }
  }

  /** The pass finds the fixed configurations, in whatever order. */
  ghost predicate Sees(i: Pass, sources: seq<Source>) {
    i.listing.Listed? ==>
      && (forall s :: s in i.Sources() <==> s in sources)
      && (forall s :: s in i.Resources() <==> s in sources)
  }

  predicate NoPlatforms(sources: seq<Source>) {
    forall s | s in sources :: s.platforms == []
  }

  /** How far the annotation has got: 1 once nothing more can be applied, 2 once it is complete. */
  ghost predicate Stage(p: PodState, sources: seq<Source>, stage: nat) {
    && (stage >= 1 ==> ArchPreferred(p.directives.preferred) || NoPlatforms(sources))
    && (stage >= 2 ==> Saturated(SourcesText(p), sources))
  }

  lemma PassText(p: PodState, i: Pass)
    ensures SourcesText(Reconcile(p, i)) ==
            if !Active(p, i) then SourcesText(p)
            else if ArchPreferred(p.directives.preferred)
            then SourcesText(SkipSources(PlaceFirst(IgnoreRelabel(p, i.operatorNamespace), i.listing.sorted, i.verdict), i.Resources()))
            else SourcesText(ApplySources(PlaceFirst(IgnoreRelabel(p, i.operatorNamespace), i.listing.sorted, i.verdict), i.Sources()))
  {
    if Active(p, i) {
      ImagePathKeepsPreferred(Prepared(p, i), i);
    }
  }

  lemma {:induction false} PlatformsEmpty(sources: seq<Source>)
    ensures Platforms(sources) == [] <==> NoPlatforms(sources)
  {
    if sources != [] {
      PlatformsEmpty(sources[1..]);
    }
  }

  lemma {:induction false} ApplyNoPlatforms(p: PodState, ss: seq<Source>)
    requires NoPlatforms(ss)
    ensures SourcesText(ApplySources(p, ss)) == SourcesText(p)
    decreases ss
  {
    if ss != [] {
      ApplyNoPlatforms(SetPreferred(p, ss[0].platforms, ss[0].name), ss[1..]);
    }
  }

  /** The pass finds none but these configurations. */
  ghost predicate SeesOnly(i: Pass, sources: seq<Source>) {
    i.listing.Listed? ==>
      && (forall s | s in i.Sources() :: s in sources)
      && (forall s | s in i.Resources() :: s in sources)
  }

  /** Every pass keeps the trail well formed. */
  lemma PassTrail(start: seq<string>, p: PodState, i: Pass, sources: seq<Source>)
    requires CommaFree(sources) && SeesOnly(i, sources) && Trail(start, SourcesText(p), sources)
    ensures Trail(start, SourcesText(Reconcile(p, i)), sources)
  {
    PassText(p, i);
    if Active(p, i) {
      var placed := PlaceFirst(IgnoreRelabel(p, i.operatorNamespace), i.listing.sorted, i.verdict);
      PlaceFirstFrame(IgnoreRelabel(p, i.operatorNamespace), i.listing.sorted, i.verdict);
      assert SourcesText(placed) == SourcesText(p);
      if ArchPreferred(p.directives.preferred) {
        SkipSourcesGrows(start, placed, i.Resources(), sources);
      } else {
        ApplySourcesGrows(start, placed, i.Sources(), sources);
      }
    }
  }

  /** Skipping or applying the same configurations again takes the annotation one stage further. */
  lemma StageStep(p: PodState, placed: PodState, q: PodState, i: Pass, sources: seq<Source>, stage: nat)
    requires CommaFree(sources) && i.listing.Listed? && Sees(i, sources)
    requires stage <= 2 && Stage(p, sources, stage)
    requires SourcesText(placed) == SourcesText(p)
    requires SourcesText(q) == if ArchPreferred(p.directives.preferred) then SourcesText(SkipSources(placed, i.Resources()))
                               else SourcesText(ApplySources(placed, i.Sources()))
    requires q.directives.preferred ==
             p.directives.preferred
             + if ArchPreferred(p.directives.preferred) then [] else NewTerms(Platforms(i.Sources()), {})
    ensures Stage(q, sources, if stage < 2 then stage + 1 else 2)
    ensures stage == 2 ==> SourcesText(q) == SourcesText(p)
  {
    if ArchPreferred(p.directives.preferred) {
      assert p.directives.preferred + [] == p.directives.preferred;
      SkipSourcesGrows(EntriesOf(SourcesText(p)), placed, i.Resources(), sources);
      if stage == 2 {
        SkipSourcesFixpoint(placed, i.Resources());
      }
    } else {
      PlatformsEmpty(i.Sources());
      if Platforms(i.Sources()) == [] {
        ApplyNoPlatforms(placed, i.Sources());
      } else {
        NewTermsAreArch(p.directives.preferred, Platforms(i.Sources()));
      }
    }
  }

  lemma PassStage(p: PodState, i: Pass, sources: seq<Source>, stage: nat)
    requires CommaFree(sources) && Sees(i, sources)
    requires stage <= 2 && Stage(p, sources, stage)
    ensures Stage(Reconcile(p, i), sources, if Active(p, i) && stage < 2 then stage + 1 else stage)
    ensures stage == 2 ==> SourcesText(Reconcile(p, i)) == SourcesText(p)
  {
    PassText(p, i);
    PassPreferences(p, i);
    if Active(p, i) {
      var placed := PlaceFirst(IgnoreRelabel(p, i.operatorNamespace), i.listing.sorted, i.verdict);
      PlaceFirstFrame(IgnoreRelabel(p, i.operatorNamespace), i.listing.sorted, i.verdict);
      StageStep(p, placed, Reconcile(p, i), i, sources, stage);
    }
  }

  function ActivePasses(p: PodState, passes: seq<Pass>): nat
    decreases passes
  {
    if passes == [] then 0
    else (if Active(p, passes[0]) then 1 else 0) + ActivePasses(Reconcile(p, passes[0]), passes[1..])
  }

  lemma {:induction false} RunTrail(start: seq<string>, p: PodState, passes: seq<Pass>, sources: seq<Source>)
    requires CommaFree(sources) && Trail(start, SourcesText(p), sources)
    requires forall k | 0 <= k < |passes| :: SeesOnly(passes[k], sources)
    ensures Trail(start, SourcesText(Run(p, passes)), sources)
    decreases passes
  {
    if passes != [] {
      PassTrail(start, p, passes[0], sources);
      RunTrail(start, Reconcile(p, passes[0]), passes[1..], sources);
    }
  }

  lemma {:induction false} RunStages(p: PodState, passes: seq<Pass>, sources: seq<Source>, stage: nat)
    requires CommaFree(sources)
    requires forall k | 0 <= k < |passes| :: Sees(passes[k], sources)
    requires stage <= 2 && Stage(p, sources, stage)
    ensures stage + ActivePasses(p, passes) >= 2 ==> Stage(Run(p, passes), sources, 2)
    ensures stage == 2 ==> SourcesText(Run(p, passes)) == SourcesText(p)
    decreases passes
  {
    if passes != [] {
      PassStage(p, passes[0], sources, stage);
      RunStages(Reconcile(p, passes[0]), passes[1..], sources,
                if Active(p, passes[0]) && stage < 2 then stage + 1 else stage);
    }
  }

  lemma {:induction false} RunConcat(p: PodState, a: seq<Pass>, b: seq<Pass>)
    ensures Run(p, a + b) == Run(Run(p, a), b)
    decreases a
  {
    if a == [] {
      assert a + b == b;
    } else {
      assert (a + b)[1..] == a[1..] + b;
      RunConcat(Reconcile(p, a[0]), a[1..], b);
    }
  }

  function EntrySet(platforms: seq<Platform>, source: string): (r: set<string>)
    ensures |r| <= 2 * |platforms|
    ensures forall t, b | t in platforms :: Entry(t, source, b) in r
  {
    if platforms == [] then {}
    else
      var rest := EntrySet(platforms[1..], source);
      var r := rest + {Entry(platforms[0], source, true)} + {Entry(platforms[0], source, false)};
      r
  }

  function AllEntries(sources: seq<Source>): (r: set<string>)
    ensures |r| <= 2 * |Platforms(sources)|
    ensures forall s, t, b | s in sources && t in s.platforms :: Entry(t, s.name, b) in r
  {
    if sources == [] then {}
    else EntrySet(sources[0].platforms, sources[0].name) + AllEntries(sources[1..])
  }

  lemma {:induction false} DistinctWithin(s: seq<string>, all: set<string>)
    requires Distinct(s) && forall e | e in s :: e in all
    ensures |s| <= |all|
  {
    if s != [] {
      var last := s[|s| - 1];
      DistinctWithin(s[..|s| - 1], all - {last});
    }
  }

  /** Whatever the annotation says at the start, and however the configurations change: a run only
      appends, each new entry once, and at most two for each platform term it ever saw. */
  lemma AnnotationGrows(p: PodState, passes: seq<Pass>, sources: seq<Source>)
    requires CommaFree(sources)
    requires forall k | 0 <= k < |passes| :: SeesOnly(passes[k], sources)
    ensures var start, entries := EntriesOf(SourcesText(p)), EntriesOf(SourcesText(Run(p, passes)));
            && start <= entries
            && |entries| <= |start| + 2 * |Platforms(sources)|
            && Distinct(entries[|start|..])
            && forall e | e in entries[|start|..] :: e !in start && IsEntryOf(e, sources)
  {
    var start := EntriesOf(SourcesText(p));
    assert Trail(start, SourcesText(p), sources);
    RunTrail(start, p, passes, sources);
    DistinctWithin(EntriesOf(SourcesText(Run(p, passes)))[|start|..], AllEntries(sources));
  }

  /** Once two passes in a row of those that reach the configurations have seen the same ones, in
      whatever order, the annotation does not change until the configurations do. */
  lemma AnnotationSettles(p: PodState, before: seq<Pass>, later: seq<Pass>, sources: seq<Source>)
    requires CommaFree(sources)
    requires forall k | 0 <= k < |before| :: Sees(before[k], sources)
    requires forall k | 0 <= k < |later| :: Sees(later[k], sources)
    requires ActivePasses(p, before) >= 2
    ensures SourcesText(Run(p, before + later)) == SourcesText(Run(p, before))
  {
    RunStages(p, before, sources, 0);
    RunStages(Run(p, before), later, sources, 2);
    RunConcat(p, before, later);
  }
}
