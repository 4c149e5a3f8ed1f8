/**
 What a pass promises about preferences: which architectures count as preferred already, and what the
 audit trail and the label say afterwards.
 */
module PreferencePromises {
  import opened Decimal
  import opened Keys
  import opened Kubernetes
  import opened PodModel
  import opened Configs
  import opened Placement
  import opened Preferences
  import opened Reconciler
  import opened Runs
  import opened PreferenceRuns
  import opened Promises

  // ---------- What is preferred, and who speaks ----------

  /** The architectures a pod prefers are those that some preferred term lists under the key. */
  lemma {:induction false} PreferredAre(preferred: seq<PreferredTerm>, a: string)
    ensures a in Existing(preferred) <==>
            exists j, k | 0 <= j < |preferred| && 0 <= k < |preferred[j].preference.expressions| ::
              preferred[j].preference.expressions[k].key == Arch && a in preferred[j].preference.expressions[k].values
  {
    if preferred != [] {
      var rest := preferred[1..];
      ValuesAre(preferred[0].preference.expressions, a);
      PreferredAre(rest, a);
      assert forall j | 0 <= j < |rest| :: rest[j] == preferred[j + 1];
      if j, k :| 0 <= j < |rest| && 0 <= k < |rest[j].preference.expressions|
                 && rest[j].preference.expressions[k].key == Arch && a in rest[j].preference.expressions[k].values {
        assert preferred[j + 1].preference.expressions[k].key == Arch;
      }
      if j, k :| 0 < j < |preferred| && 0 <= k < |preferred[j].preference.expressions|
                 && preferred[j].preference.expressions[k].key == Arch && a in preferred[j].preference.expressions[k].values {
        assert rest[j - 1].preference.expressions[k].key == Arch;
      }
    }
  }

  lemma {:induction false} ValuesAre(expressions: seq<Requirement>, a: string)
    ensures a in ArchValues(expressions) <==>
            exists k | 0 <= k < |expressions| :: expressions[k].key == Arch && a in expressions[k].values
  {
    if expressions != [] {
      var rest := expressions[1..];
      ValuesAre(rest, a);
      assert forall k | 0 <= k < |rest| :: rest[k] == expressions[k + 1];
      if k :| 0 < k < |expressions| && expressions[k].key == Arch && a in expressions[k].values {
        assert rest[k - 1].key == Arch;
      }
    }
  }

  /** The configurations speak under their own names, in order of priority, the cluster's last. */
  lemma {:induction false} SourcesAre(sorted: seq<Ppc>, s: Source)
    ensures s in PpcSources(sorted) <==>
            exists k | 0 <= k < |sorted| ::
              sorted[k].scoring.Some? && s == Source("PodPlacementConfig-" + sorted[k].name, sorted[k].scoring.value)
  {
    if sorted != [] {
      SourcesAre(sorted[1..], s);
      assert forall k | 0 <= k < |sorted| - 1 :: sorted[1..][k] == sorted[k + 1];
      if k :| 0 < k < |sorted| && sorted[k].scoring.Some?
              && s == Source("PodPlacementConfig-" + sorted[k].name, sorted[k].scoring.value) {
        assert sorted[1..][k - 1].scoring.Some?;
      }
    }
  }

  // ---------- What a pass leaves behind ----------

  /** The configuration of this name, a matching one or the cluster's, lists the platform. */
  ghost predicate ListedBy(i: Pass, name: string, t: Platform)
    requires i.listing.Listed?
  {
    || (exists x | x in i.listing.matching ::
          x.scoring.Some? && t in x.scoring.value && name == "PodPlacementConfig-" + x.name)
    || (i.cppc.Some? && i.cppc.value.scoring.Some? && t in i.cppc.value.scoring.value && name == "ClusterPodPlacementConfig")
  }

  lemma Speaker(i: Pass, sorted: seq<Ppc>, name: string, t: Platform) returns (s: Source)
    requires i.listing.Listed? && IsSortOf(sorted, i.listing.matching) && ListedBy(i, name, t)
    ensures s in PpcSources(sorted) + CppcSources(i.cppc) && s.name == name && t in s.platforms
  {
    if x :| x in i.listing.matching && x.scoring.Some? && t in x.scoring.value && name == "PodPlacementConfig-" + x.name {
      s := Source(name, x.scoring.value);
      assert x in multiset(i.listing.matching) && x in multiset(sorted);
      SourcesAre(sorted, s);
    } else {
      s := Source(name, i.cppc.value.scoring.value);
      assert s in CppcSources(i.cppc);
    }
  }

  lemma {:induction false} SplitAt(sources: seq<Source>, s: Source) returns (before: seq<Source>, after: seq<Source>)
    requires s in sources
    ensures sources == before + [s] + after
  {
    var k :| 0 <= k < |sources| && sources[k] == s;
    before, after := sources[..k], sources[k + 1..];
  }

  lemma AppliedTells(p: PodState, sources: seq<Source>, s: Source, t: Platform)
    requires CommaFree(sources) && s in sources && t in s.platforms
    ensures var e := t.architecture + ":" + Print(t.weight) + ":" + s.name;
            var entries := EntriesOf(SourcesText(ApplySources(p, sources)));
            e in entries || e + ":skipped" in entries
  {
    var before, after := SplitAt(sources, s);
    var k :| 0 <= k < |s.platforms| && s.platforms[k] == t;
    TrailTells(p, before, s, after, k);
    var e := t.architecture + ":" + Print(t.weight) + ":" + s.name;
    assert e + "" == e;
  }

  predicate SamePreferences(p: PodState, q: PodState) {
    && q.directives.preferred == p.directives.preferred && SourcesText(q) == SourcesText(p)
    && q.Label(PreferredNodeAffinity) == p.Label(PreferredNodeAffinity)
  }

  lemma RequirementKeepsPreferences(p: PodState, inspection: Inspection)
    ensures SamePreferences(p, SetArchRequirement(p, inspection).0)
  {
    if !ArchConfigured(p.directives) && inspection.Inspected? && inspection.architectures != [] {
      var values := inspection.architectures;
      var t := p.WithoutLabel(InspectionError).WithLabel(if |values| == 1 then SingleArch else MultiArch, "");
      SupportedLabelsElsewhere(t.Labels(), values, PreferredNodeAffinity);
    }
  }

  lemma ImagePathKeepsPreferences(p: PodState, i: Pass)
    ensures SamePreferences(p, ImagePath(p, i))
  {
    RequirementKeepsPreferences(p, i.inspection);
    var (q, failed) := SetArchRequirement(p, i.inspection);
    if failed {
      assert SamePreferences(q, HandleError(q, i.inspection.message));
    }
  }

  lemma ProcessedPreferences(p: PodState, i: Pass)
    requires i.listing.Listed? && Concerned(p, i.operatorNamespace, i.cppc, i.listing.matching)
    ensures SamePreferences(Prepared(p, i), Process(p, i))
  {
    ConcernedMeans(p, i.operatorNamespace, i.cppc, i.listing.matching);
    ImagePathKeepsPreferences(Prepared(p, i), i);
    assert SamePreferences(Prepared(p, i), Ungate(Prepared(p, i)));
  }

  /** Every listing of every configuration that a pass works with is in the trail it submits, with its
      architecture, weight and source; as skipped, if the pod already had preferences. */
  lemma PassTells(p: PodState, w: World, i: Pass, name: string, t: Platform)
    requires IsPassOf(i, w, p) && i.listing.Listed? && Concerned(p, i.operatorNamespace, i.cppc, i.listing.matching)
    requires ListedBy(i, name, t) && CommaFree(i.Sources()) && CommaFree(i.Resources())
    ensures var e := t.architecture + ":" + Print(t.weight) + ":" + name;
            var entries := EntriesOf(SourcesText(Process(p, i)));
            e + ":skipped" in entries || (!LikesArch(p.directives) && e in entries)
  {
    ConcernedMeans(p, i.operatorNamespace, i.cppc, i.listing.matching);
    ProcessedPreferences(p, i);
    var placed := PlaceFirst(IgnoreRelabel(p, i.operatorNamespace), i.listing.sorted, i.verdict);
    assert ArchPreferred(p.directives.preferred) <==> LikesArch(p.directives) by {
      assert forall t: Term :: TermFixesArch(t) <==> NamesKey(t, Arch);
    }
    if LikesArch(p.directives) {
      var s := Speaker(i, i.listing.resorted, name, t);
      SkippedTrailTells(placed, i.Resources(), s, t);
    } else {
      var s := Speaker(i, i.listing.sorted, name, t);
      AppliedTells(placed, i.Sources(), s, t);
    }
  }

  lemma {:induction false} AppliedLabel(p: PodState, sources: seq<Source>)
    ensures var q := ApplySources(p, sources);
            q.Label(PreferredNodeAffinity) ==
            if q.directives.preferred == p.directives.preferred then p.Label(PreferredNodeAffinity) else Some("set")
    decreases sources
  {
    if sources != [] {
      var r := SetPreferred(p, sources[0].platforms, sources[0].name);
      AppliedLabel(r, sources[1..]);
      ApplySourcesTerms(r, sources[1..]);
      ApplySourcesTerms(p, sources);
    }
  }

  lemma PreparedPreferenceLabel(p: PodState, i: Pass)
    requires i.listing.Listed?
    ensures Prepared(p, i).Label(PreferredNodeAffinity) ==
            if Prepared(p, i).directives.preferred == p.directives.preferred then p.Label(PreferredNodeAffinity) else Some("set")
  {
    PlacedLabel(p, i.operatorNamespace, i.listing.sorted, i.verdict, PreferredNodeAffinity);
    var placed := PlaceFirst(IgnoreRelabel(p, i.operatorNamespace), i.listing.sorted, i.verdict);
    assert placed.directives.preferred == p.directives.preferred;
    if ArchPreferred(p.directives.preferred) {
      SkippedKeepsLabels(placed, i.Resources());
      SkipSourcesFrame(placed, i.Resources());
    } else {
      AppliedLabel(placed, i.Sources());
    }
  }

  /** The label says that a pass has added preferences, when it has. */
  lemma PreferenceLabelTells(p: PodState, i: Pass)
    requires i.listing.Listed? && Concerned(p, i.operatorNamespace, i.cppc, i.listing.matching)
    ensures Process(p, i).Label(PreferredNodeAffinity) ==
            if Process(p, i).directives.preferred == p.directives.preferred then p.Label(PreferredNodeAffinity) else Some("set")
  {
    ProcessedPreferences(p, i);
    PreparedPreferenceLabel(p, i);
  }
}
