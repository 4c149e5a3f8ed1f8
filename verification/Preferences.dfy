/**
 Preferred architecture affinity and its audit annotation: `SetPreferredArchNodeAffinity`,
 `getExistingPreferredArchitectures` and `trackAffinitySource` of pod_model.go, folded over the
 configurations by pod_reconciler.go.
 */
module Preferences {
  import opened Decimal
  import opened Keys
  import opened Kubernetes
  import opened PodModel
  import opened Configs

  // ---------- The affinity-sources annotation ----------

  /** `strings.Split(s, ",")` */
  function Split(s: string): (r: seq<string>)
    ensures r != []
  {
    if s == "" then [""]
    else if s[0] == ',' then [""] + Split(s[1..])
    else
      var rest := Split(s[1..]);
      [[s[0]] + rest[0]] + rest[1..]
  }

  function EntriesOf(text: string): seq<string> {
    if text == "" then [] else Split(text)
  }

  /** `fmt.Sprintf("%s:%d:%s", …)`, with ":skipped" appended when the term was not applied. */
  function Entry(platform: Platform, source: string, applied: bool): (r: string)
    ensures r != ""
  {
    platform.architecture + ":" + Print(platform.weight) + ":" + source + if applied then "" else ":skipped"
  }

  /** `trackAffinitySource` on the text of the annotation. */
  function Tracked(text: string, entry: string): (r: string)
    requires entry != ""
    ensures r != ""
  {
    if text != "" && entry in Split(text) then text
    else if text == "" then entry
    else text + "," + entry
  }

  lemma {:induction false} SplitCommaFree(s: string)
    requires ',' !in s
    ensures Split(s) == [s]
  {
    if s != "" {
      SplitCommaFree(s[1..]);
      assert [s[0]] + s[1..] == s;
    }
  }

  lemma {:induction false} SplitSnoc(s: string, entry: string)
    requires ',' !in entry
    ensures Split(s + "," + entry) == Split(s) + [entry]
  {
    var all := s + "," + entry;
    if s == "" {
      assert all == "," + entry && all[1..] == entry;
      SplitCommaFree(entry);
    } else {
      assert all[1..] == s[1..] + "," + entry;
      SplitSnoc(s[1..], entry);
    }
  }

  /** On the list of entries, tracking appends the entry exactly when it is new. */
  lemma TrackedEntries(text: string, entry: string)
    requires entry != "" && ',' !in entry
    ensures EntriesOf(Tracked(text, entry)) ==
            if entry in EntriesOf(text) then EntriesOf(text) else EntriesOf(text) + [entry]
  {
    if text == "" {
      SplitCommaFree(entry);
    } else {
      SplitSnoc(text, entry);
    }
  }

  // ---------- Preferred terms ----------

  function PreferredFor(platform: Platform): PreferredTerm {
    PreferredTerm(platform.weight, Term([Requirement(Arch, In, [platform.architecture])], []))
  }

  function ArchValues(expressions: seq<Requirement>): set<string> {
    if expressions == [] then {}
    else
      (if expressions[0].key == Arch then set v | v in expressions[0].values else {})
      + ArchValues(expressions[1..])
  }

  /** `getExistingPreferredArchitectures` */
  function Existing(preferred: seq<PreferredTerm>): set<string> {
    if preferred == [] then {}
    else ArchValues(preferred[0].preference.expressions) + Existing(preferred[1..])
  }

  /** `isPreferredAffinityConfiguredForArchitecture` */
  predicate ArchPreferred(preferred: seq<PreferredTerm>) {
    exists i | 0 <= i < |preferred| :: NamesKey(preferred[i].preference, Arch)
  }

  /** The terms one configuration adds when the architectures in `seen` are already preferred. */
  function NewTerms(platforms: seq<Platform>, seen: set<string>): seq<PreferredTerm>
    decreases platforms
  {
    if platforms == [] then []
    else if platforms[0].architecture in seen then NewTerms(platforms[1..], seen)
    else [PreferredFor(platforms[0])] + NewTerms(platforms[1..], seen + {platforms[0].architecture})
  }

  function TrackedAll(text: string, platforms: seq<Platform>, seen: set<string>, source: string): string
    decreases platforms
  {
    if platforms == [] then text
    else
      var applied := platforms[0].architecture !in seen;
      TrackedAll(Tracked(text, Entry(platforms[0], source, applied)), platforms[1..],
                 seen + {platforms[0].architecture}, source)
  }

  function SourcesText(p: PodState): string {
    if AffinitySources in p.annotations then p.annotations[AffinitySources] else ""
  }

  function WithSourcesText(p: PodState, text: string): PodState {
    if text == "" then p else p.WithAnnotation(AffinitySources, text)
  }

  /** `SetPreferredArchNodeAffinity` */
  function SetPreferred(p: PodState, platforms: seq<Platform>, source: string): PodState {
    var seen := Existing(p.directives.preferred);
    var added := NewTerms(platforms, seen);
    var q := WithSourcesText(p, TrackedAll(SourcesText(p), platforms, seen, source));
    var r := q.(directives := p.directives.(preferred := p.directives.preferred + added));
    if added == [] then r else r.WithLabel(PreferredNodeAffinity, ValueSet)
  }

  // ---------- The fold over the configurations ----------

  /** One enabled NodeAffinityScoring plugin together with the name it leaves in the annotation. */
  datatype Source = Source(name: string, platforms: seq<Platform>)

  function PpcSources(sorted: seq<Ppc>): seq<Source> {
    if sorted == [] then []
    else
      (if sorted[0].scoring.Some? then [Source("PodPlacementConfig-" + sorted[0].name, sorted[0].scoring.value)] else [])
      + PpcSources(sorted[1..])
  }

  function CppcSources(cppc: Option<Cppc>): seq<Source> {
    if cppc.Some? && cppc.value.scoring.Some?
    then [Source("ClusterPodPlacementConfig", cppc.value.scoring.value)] else []
  }

  function Platforms(sources: seq<Source>): seq<Platform> {
    if sources == [] then [] else sources[0].platforms + Platforms(sources[1..])
  }

  function ApplySources(p: PodState, sources: seq<Source>): PodState
    decreases sources
  {
    if sources == [] then p
    else ApplySources(SetPreferred(p, sources[0].platforms, sources[0].name), sources[1..])
  }

  function SkippedText(text: string, platforms: seq<Platform>, source: string): string
    decreases platforms
  {
    if platforms == [] then text
    else SkippedText(Tracked(text, Entry(platforms[0], source, false)), platforms[1..], source)
  }

  /** `trackSkippedMatchingConfigs` */
  function SkipSources(p: PodState, sources: seq<Source>): PodState
    decreases sources
  {
    if sources == [] then p
    else SkipSources(WithSourcesText(p, SkippedText(SourcesText(p), sources[0].platforms, sources[0].name)), sources[1..])
  }

  // ---------- What the fold adds to the preferred terms ----------

  function Architectures(platforms: seq<Platform>): set<string> {
    set i | 0 <= i < |platforms| :: platforms[i].architecture
  }

  lemma {:induction false} ExistingConcat(a: seq<PreferredTerm>, b: seq<PreferredTerm>)
    ensures Existing(a + b) == Existing(a) + Existing(b)
  {
    if a == [] {
      assert a + b == b;
    } else {
      assert (a + b)[1..] == a[1..] + b;
      ExistingConcat(a[1..], b);
    }
  }

  lemma ArchitecturesCons(platforms: seq<Platform>)
    requires platforms != []
    ensures Architectures(platforms) == {platforms[0].architecture} + Architectures(platforms[1..])
  {
    forall a | a in Architectures(platforms)
      ensures a in {platforms[0].architecture} + Architectures(platforms[1..])
    {
      var i :| 0 <= i < |platforms| && platforms[i].architecture == a;
      assert i > 0 ==> platforms[1..][i - 1].architecture == a;
    }
    forall a | a in Architectures(platforms[1..]) ensures a in Architectures(platforms) {
      var i :| 0 <= i < |platforms| - 1 && platforms[1..][i].architecture == a;
      assert platforms[i + 1].architecture == a;
    }
    assert platforms[0].architecture in Architectures(platforms);
  }

  lemma ExistingOne(platform: Platform)
    ensures Existing([PreferredFor(platform)]) == {platform.architecture}
  {
    var e := PreferredFor(platform).preference.expressions;
    assert ArchValues(e) == (set v | v in e[0].values) + ArchValues(e[1..]);
    assert e[1..] == [];
    assert Existing([PreferredFor(platform)][1..]) == {};
  }

  /** After the new terms, everything listed is preferred. */
  lemma {:induction false} ExistingAfter(platforms: seq<Platform>, seen: set<string>)
    ensures seen + Existing(NewTerms(platforms, seen)) == seen + Architectures(platforms)
    decreases platforms
  {
    if platforms != [] {
      var a := platforms[0].architecture;
      ArchitecturesCons(platforms);
      if a in seen {
        ExistingAfter(platforms[1..], seen);
      } else {
        ExistingAfter(platforms[1..], seen + {a});
        ExistingConcat([PreferredFor(platforms[0])], NewTerms(platforms[1..], seen + {a}));
        ExistingOne(platforms[0]);
      }
    }
  }

  lemma {:induction false} NewTermsConcat(a: seq<Platform>, b: seq<Platform>, seen: set<string>)
    ensures NewTerms(a + b, seen) == NewTerms(a, seen) + NewTerms(b, seen + Architectures(a))
    decreases a
  {
    if a == [] {
      assert a + b == b;
      assert seen + Architectures(a) == seen;
    } else {
      assert (a + b)[1..] == a[1..] + b;
      ArchitecturesCons(a);
      var x := a[0].architecture;
      NewTermsConcat(a[1..], b, seen + {x});
      assert seen + {x} + Architectures(a[1..]) == seen + Architectures(a);
      if x in seen {
        assert seen + {x} == seen;
      }
    }
  }

  lemma SetPreferredTerms(p: PodState, platforms: seq<Platform>, source: string)
    ensures SetPreferred(p, platforms, source).directives ==
            p.directives.(preferred := p.directives.preferred + NewTerms(platforms, Existing(p.directives.preferred)))
  {
  }

  /** Adding for one listing and then for another is adding for their concatenation. */
  lemma NewTermsTwice(preferred: seq<PreferredTerm>, a: seq<Platform>, b: seq<Platform>)
    ensures var once := preferred + NewTerms(a, Existing(preferred));
            once + NewTerms(b, Existing(once)) == preferred + NewTerms(a + b, Existing(preferred))
  {
    var seen := Existing(preferred);
    var once := preferred + NewTerms(a, seen);
    ExistingConcat(preferred, NewTerms(a, seen));
    ExistingAfter(a, seen);
    NewTermsConcat(a, b, seen);
    assert Existing(once) == seen + Architectures(a);
  }

  /** The whole fold is one application to the concatenation of all listings, and the terms that
      were there before stay a prefix. */
  lemma {:induction false} ApplySourcesTerms(p: PodState, sources: seq<Source>)
    ensures ApplySources(p, sources).directives ==
            p.directives.(preferred := p.directives.preferred
                                       + NewTerms(Platforms(sources), Existing(p.directives.preferred)))
    decreases sources
  {
    if sources == [] {
      assert p.directives.preferred + [] == p.directives.preferred;
    } else {
      SetPreferredTerms(p, sources[0].platforms, sources[0].name);
      ApplySourcesTerms(SetPreferred(p, sources[0].platforms, sources[0].name), sources[1..]);
      NewTermsTwice(p.directives.preferred, sources[0].platforms, Platforms(sources[1..]));
    }
  }

  /** The weight of the first listing of an architecture. */
  function FirstWeight(platforms: seq<Platform>, a: string): (r: Option<int>)
    ensures r.Some? <==> exists i | 0 <= i < |platforms| :: platforms[i].architecture == a
  {
    if platforms == [] then None
    else if platforms[0].architecture == a then Some(platforms[0].weight)
    else
      var r := FirstWeight(platforms[1..], a);
      assert forall i | 0 < i < |platforms| :: platforms[i] == platforms[1..][i - 1];
      r
  }

  /** How many terms prefer an architecture by name. */
  function TermsFor(preferred: seq<PreferredTerm>, a: string): nat {
    if preferred == [] then 0
    else (if a in ArchValues(preferred[0].preference.expressions) then 1 else 0) + TermsFor(preferred[1..], a)
  }

  lemma {:induction false} TermsForConcat(s: seq<PreferredTerm>, t: seq<PreferredTerm>, a: string)
    ensures TermsFor(s + t, a) == TermsFor(s, a) + TermsFor(t, a)
  {
    if s == [] {
      assert s + t == t;
    } else {
      assert (s + t)[1..] == s[1..] + t;
      TermsForConcat(s[1..], t, a);
    }
  }

  /** Exactly one new term for each architecture that is listed and not yet preferred. */
  lemma {:induction false} OneTermEach(platforms: seq<Platform>, seen: set<string>, a: string)
    ensures TermsFor(NewTerms(platforms, seen), a) == if a !in seen && FirstWeight(platforms, a).Some? then 1 else 0
    decreases platforms
  {
    if platforms != [] {
      var x := platforms[0].architecture;
      if x in seen {
        OneTermEach(platforms[1..], seen, a);
      } else {
        OneTermEach(platforms[1..], seen + {x}, a);
        ExistingOne(platforms[0]);
        TermsForConcat([PreferredFor(platforms[0])], NewTerms(platforms[1..], seen + {x}), a);
      }
    }
  }

  lemma PreferredForMatches(platform: Platform, n: Node)
    ensures TermMatches(PreferredFor(platform).preference, n) <==>
            Arch in n.labels && n.labels[Arch] == platform.architecture
  {
    var t := PreferredFor(platform).preference;
    assert AllHold(t.expressions, n.labels) <==> Holds(t.expressions[0], n.labels);
  }

  lemma {:induction false} NewTermsScore(platforms: seq<Platform>, seen: set<string>, n: Node)
    ensures Score(NewTerms(platforms, seen), n) ==
            if Arch in n.labels && n.labels[Arch] !in seen && FirstWeight(platforms, n.labels[Arch]).Some?
            then FirstWeight(platforms, n.labels[Arch]).value else 0
    decreases platforms
  {
    if platforms != [] {
      var x := platforms[0].architecture;
      if x in seen {
        NewTermsScore(platforms[1..], seen, n);
      } else {
        NewTermsScore(platforms[1..], seen + {x}, n);
        PreferredForMatches(platforms[0], n);
        assert ([PreferredFor(platforms[0])] + NewTerms(platforms[1..], seen + {x}))[1..] == NewTerms(platforms[1..], seen + {x});
      }
    }
  }

  /** Each node's score rises by exactly the weight of the first listing of its architecture. */
  lemma ApplySourcesScore(p: PodState, sources: seq<Source>, n: Node)
    ensures Score(ApplySources(p, sources).directives.preferred, n) ==
            Score(p.directives.preferred, n)
            + if Arch in n.labels && n.labels[Arch] !in Existing(p.directives.preferred)
                 && FirstWeight(Platforms(sources), n.labels[Arch]).Some?
              then FirstWeight(Platforms(sources), n.labels[Arch]).value else 0
  {
    var seen := Existing(p.directives.preferred);
    ApplySourcesTerms(p, sources);
    ScoreConcat(p.directives.preferred, NewTerms(Platforms(sources), seen), n);
    NewTermsScore(Platforms(sources), seen, n);
  }

  // ---------- Which configuration is the first to list an architecture ----------

  lemma {:induction false} FirstWeightConcat(s: seq<Platform>, t: seq<Platform>, a: string)
    ensures FirstWeight(s + t, a) == if FirstWeight(s, a).Some? then FirstWeight(s, a) else FirstWeight(t, a)
  {
    if s == [] {
      assert s + t == t;
    } else {
      assert (s + t)[1..] == s[1..] + t;
      FirstWeightConcat(s[1..], t, a);
    }
  }

  predicate Lists(ppc: Ppc, a: string) {
    ppc.scoring.Some? && FirstWeight(ppc.scoring.value, a).Some?
  }

  /** The weight an architecture gets from the sorted configurations followed by the cluster's. */
  function EffectiveWeight(sorted: seq<Ppc>, cppc: Option<Cppc>, a: string): Option<int> {
    FirstWeight(Platforms(PpcSources(sorted) + CppcSources(cppc)), a)
  }

  /** Of several listings, the one with the highest priority gives the weight. */
  lemma {:induction false} HighestPriorityWins(sorted: seq<Ppc>, cppc: Option<Cppc>, a: string, k: nat)
    requires Descending(sorted)
    requires k < |sorted| && Lists(sorted[k], a)
    requires forall j | 0 <= j < |sorted| && j != k && Lists(sorted[j], a) :: sorted[j].priority < sorted[k].priority
    ensures EffectiveWeight(sorted, cppc, a) == FirstWeight(sorted[k].scoring.value, a)
  {
    EffectiveWeightCons(sorted, cppc, a);
    if k > 0 {
      assert !Lists(sorted[0], a);
      HighestPriorityWins(sorted[1..], cppc, a, k - 1);
    }
  }

  /** The cluster configuration counts only when no matching PodPlacementConfig lists the architecture. */
  lemma {:induction false} ClusterWeightIsLast(sorted: seq<Ppc>, cppc: Option<Cppc>, a: string)
    requires forall k | 0 <= k < |sorted| :: !Lists(sorted[k], a)
    ensures EffectiveWeight(sorted, cppc, a) == FirstWeight(Platforms(CppcSources(cppc)), a)
  {
    if sorted == [] {
      assert PpcSources(sorted) + CppcSources(cppc) == CppcSources(cppc);
    } else {
      EffectiveWeightCons(sorted, cppc, a);
      ClusterWeightIsLast(sorted[1..], cppc, a);
    }
  }

  lemma EffectiveWeightCons(sorted: seq<Ppc>, cppc: Option<Cppc>, a: string)
    requires sorted != []
    ensures EffectiveWeight(sorted, cppc, a) ==
            if Lists(sorted[0], a) then FirstWeight(sorted[0].scoring.value, a)
            else EffectiveWeight(sorted[1..], cppc, a)
  {
    var rest := PpcSources(sorted[1..]) + CppcSources(cppc);
    FirstSourceCounts(sorted[0], rest, a);
    assert [sorted[0]][1..] == [];
    assert PpcSources(sorted) + CppcSources(cppc) == PpcSources([sorted[0]]) + rest;
  }

  lemma FirstSourceCounts(ppc: Ppc, rest: seq<Source>, a: string)
    ensures FirstWeight(Platforms(PpcSources([ppc]) + rest), a) ==
            if Lists(ppc, a) then FirstWeight(ppc.scoring.value, a) else FirstWeight(Platforms(rest), a)
  {
    assert [ppc][1..] == [];
    if ppc.scoring.Some? {
      var source := PpcSources([ppc])[0];
      assert ([source] + rest)[1..] == rest;
      FirstWeightConcat(ppc.scoring.value, Platforms(rest), a);
    } else {
      assert PpcSources([ppc]) + rest == rest;
    }
  }
}
