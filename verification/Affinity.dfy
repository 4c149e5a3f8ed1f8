/**
 The in-place code of internal/controller/podplacement/pod_model.go, each method proved against
 the specification functions of `PodModel` and `Preferences`.
 */
module Affinity {
  import opened Decimal
  import opened Keys
  import opened Kubernetes
  import opened PodModel
  import opened PodObject
  import opened Configs
  import opened Preferences
  import StringSets

  // ---------- Required affinity ----------

  method NamesKeyScan(expressions: seq<Requirement>, key: Key) returns (found: bool)
    ensures found <==> exists i | 0 <= i < |expressions| :: expressions[i].key == key
  {
    for i := 0 to |expressions|
      invariant forall j | 0 <= j < i :: expressions[j].key != key
    {
      if expressions[i].key == key {
        return true;
      }
    }
    return false;
  }

  method SetRequiredArchNodeAffinity(pod: Pod, requirement: Requirement)
    modifies pod`required, pod`labels
    ensures pod.State() == RequireOnPod(old(pod.State()), requirement)
  {
    if pod.required.None? || pod.required.value == [] {
      pod.required := Some([Term([], [])]);
    }
    ghost var terms := pod.required.value;
    for i := 0 to |pod.required.value|
      invariant pod.required.Some? && |pod.required.value| == |terms| && pod.labels == old(pod.labels)
      invariant forall j | 0 <= j < i :: pod.required.value[j] == AddRequirement(terms[j], requirement)
      invariant forall j | i <= j < |terms| :: pod.required.value[j] == terms[j]
    {
      var term := pod.required.value[i];
      var skip := NamesKeyScan(term.expressions, requirement.key);
      if !skip {
        pod.required := Some(pod.required.value[i := term.(expressions := term.expressions + [requirement])]);
      }
    }
    assert pod.required.value == Require(old(pod.required), requirement).value;
    pod.EnsureLabel(NodeAffinity, ValueSet);
  }

  /** `isNodeSelectorConfiguredForArchitecture`, which also relabels the pod when the nodeSelector
      names the architecture. */
  function ConfiguredRelabel(p: PodState): PodState {
    if Arch in p.directives.nodeSelector then p.WithLabel(NodeAffinity, ValueNotSet) else p
  }

  method IsNodeSelectorConfiguredForArchitecture(pod: Pod) returns (configured: bool)
    modifies pod`labels
    ensures configured <==> ArchConfigured(old(pod.State()).directives)
    ensures pod.State() == ConfiguredRelabel(old(pod.State()))
  {
    if Arch in pod.nodeSelector {
      pod.EnsureLabel(NodeAffinity, ValueNotSet);
      return true;
    }
    if pod.required.None? {
      return false;
    }
    for i := 0 to |pod.required.value|
      invariant pod.State() == old(pod.State())
      invariant forall j | 0 <= j < i :: NamesKey(pod.required.value[j], Arch)
    {
      var hasArch := NamesKeyScan(pod.required.value[i].expressions, Arch);
      if !hasArch {
        assert !NamesKey(pod.required.value[i], Arch);
        return false;
      }
    }
    return true;
  }

  // ---------- Inspecting the images ----------

  datatype ContainerImage = ContainerImage(name: string, skipCache: bool)

  datatype ImageResult = ImageError(message: string) | ImageArchitectures(architectures: set<string>)

  function ImageOf(c: Container): ContainerImage {
    ContainerImage("//" + c.image, c.pullAlways)
  }

  function ImagesOf(containers: seq<Container>): set<ContainerImage> {
    set i | 0 <= i < |containers| :: ImageOf(containers[i])
  }

  ghost predicate Common(images: set<ContainerImage>, inspect: ContainerImage -> ImageResult, a: string) {
    images != {} && forall c | c in images :: inspect(c).ImageArchitectures? && a in inspect(c).architectures
  }

  /** The outcomes the inspection may have: an error of one of the images, or the increasing list
      of the architectures that all of them support. */
  ghost predicate IsInspection(images: set<ContainerImage>, inspect: ContainerImage -> ImageResult, r: Inspection) {
    match r
    case InspectionFailed(m) => exists c | c in images :: inspect(c) == ImageError(m)
    case Inspected(architectures) =>
      && (forall c | c in images :: inspect(c).ImageArchitectures?)
      && StringSets.Increasing(architectures)
      && forall a :: a in architectures <==> Common(images, inspect, a)
  }

  lemma CommonAdd(done: set<ContainerImage>, c: ContainerImage, inspect: ContainerImage -> ImageResult, a: string)
    requires inspect(c).ImageArchitectures?
    ensures Common(done + {c}, inspect, a) <==> (done == {} || Common(done, inspect, a)) && a in inspect(c).architectures
  {
  }

  /** Go ranges over the set in any order; so does the choice of `c` below. */
  method IntersectImagesArchitecture(pod: Pod, inspect: ContainerImage -> ImageResult) returns (r: Inspection)
    ensures IsInspection(ImagesOf(pod.State().AllContainers()), inspect, r)
  {
    var images := ImagesOf(pod.State().AllContainers());
    var supported: Option<set<string>> := None;
    var todo := images;
    while todo != {}
      invariant todo <= images
      invariant forall c | c in images && c !in todo :: inspect(c).ImageArchitectures?
      invariant supported.None? <==> todo == images
      invariant supported.Some? ==> forall a :: a in supported.value <==> Common(images - todo, inspect, a)
    {
      var c :| c in todo;
      var result := inspect(c);
      if result.ImageError? {
        return InspectionFailed(result.message);
      }
      ghost var done := images - todo;
      assert images == todo + done;
      if supported.None? {
        supported := Some(result.architectures);
      } else {
        supported := Some(supported.value * result.architectures);
      }
      todo := todo - {c};
      assert images - todo == done + {c};
      forall a ensures a in supported.value <==> Common(images - todo, inspect, a) {
        CommonAdd(done, c, inspect, a);
      }
    }
    assert images - todo == images;
    var listed := StringSets.List(if supported.Some? then supported.value else {});
    r := Inspected(listed);
  }

  /** Every iteration order fails alike, and when none fails gives the same requirement. */
  lemma InspectionIsUnique(images: set<ContainerImage>, inspect: ContainerImage -> ImageResult, r: Inspection, s: Inspection)
    requires IsInspection(images, inspect, r) && IsInspection(images, inspect, s)
    ensures r.Inspected? <==> s.Inspected?
    ensures r.Inspected? ==> r == s
  {
    if r.Inspected? && s.Inspected? {
      StringSets.ListingIsUnique(r.architectures, s.architectures);
    }
  }

  method EnsureArchitectureLabels(pod: Pod, values: seq<string>)
    modifies pod`labels
    ensures pod.State() == ArchitectureLabels(old(pod.State()), values)
  {
    if values == [] {
      return;
    }
    pod.EnsureLabel(if |values| == 1 then SingleArch else MultiArch, "");
    ghost var before := pod.State();
    for i := 0 to |values|
      invariant pod.labels.Some? && pod.State() == before.(labels := pod.labels)
      invariant SupportedLabels(pod.labels.value, values[i..]) == SupportedLabels(before.Labels(), values)
    {
      if values[i] in SupportedArchitectures {
        pod.EnsureLabel(SupportedArch(values[i]), "");
      }
      assert values[i..][1..] == values[i + 1..];
    }
  }

  method SetNodeAffinityArchRequirement(pod: Pod, inspect: ContainerImage -> ImageResult)
    returns (failure: Option<string>, ghost inspection: Inspection)
    modifies pod`required, pod`labels
    ensures !ArchConfigured(old(pod.State()).directives) ==> IsInspection(ImagesOf(pod.State().AllContainers()), inspect, inspection)
    ensures pod.State() == SetArchRequirement(old(pod.State()), inspection).0
    ensures failure.Some? <==> SetArchRequirement(old(pod.State()), inspection).1
    ensures failure.Some? ==> inspection == InspectionFailed(failure.value)
  {
    var configured := IsNodeSelectorConfiguredForArchitecture(pod);
    if configured {
      pod.EnsureLabel(NodeAffinity, ValueNotSet);
      assert pod.labels.value == old(pod.State()).Labels()[NodeAffinity := ValueNotSet];
      return None, Inspected([]);
    }
    var result := IntersectImagesArchitecture(pod, inspect);
    inspection := result;
    if result.InspectionFailed? {
      return Some(result.message), inspection;
    }
    pod.EnsureNoLabel(InspectionError);
    EnsureArchitectureLabels(pod, result.architectures);
    SetRequiredArchNodeAffinity(pod, ArchitecturePredicate(result.architectures));
    return None, inspection;
  }

  method SetRequiredNodeAffinityToFallbackArchitecture(pod: Pod, architecture: string)
    modifies pod`required, pod`labels
    ensures pod.State() == SetFallback(old(pod.State()), architecture)
  {
    SetRequiredArchNodeAffinity(pod, Requirement(Arch, In, [architecture]));
    pod.EnsureLabel(FallbackArch, architecture);
  }

  // ---------- Preferred affinity ----------

  function Retexted(annotations: map<Key, string>, text: string): map<Key, string> {
    if text == "" then annotations else annotations[AffinitySources := text]
  }

  lemma RetextedTwice(annotations: map<Key, string>, before: string, after: string)
    requires after != ""
    ensures Retexted(annotations, before)[AffinitySources := after] == Retexted(annotations, after)
  {
  }

  method TrackAffinitySource(pod: Pod, platform: Platform, source: string, applied: bool)
    modifies pod`annotations
    ensures pod.State() == old(pod.State()).WithAnnotation(
                AffinitySources, Tracked(SourcesText(old(pod.State())), Entry(platform, source, applied)))
  {
    var existing := "";
    if AffinitySources in pod.annotations {
      existing := pod.annotations[AffinitySources];
    }
    var entry := Entry(platform, source, applied);
    if existing != "" {
      var entries := Split(existing);
      for i := 0 to |entries|
        invariant pod.State() == old(pod.State())
        invariant entry !in entries[..i]
      {
        if entries[i] == entry {
          return;
        }
      }
      assert entries[..|entries|] == entries;
    }
    if existing == "" {
      pod.EnsureAnnotation(AffinitySources, entry);
    } else {
      pod.EnsureAnnotation(AffinitySources, existing + "," + entry);
    }
  }

  method ArchValuesOf(expressions: seq<Requirement>) returns (values: set<string>)
    ensures values == ArchValues(expressions)
  {
    values := {};
    for i := 0 to |expressions|
      invariant values + ArchValues(expressions[i..]) == ArchValues(expressions)
    {
      assert expressions[i..][1..] == expressions[i + 1..];
      if expressions[i].key == Arch {
        values := values + (set v | v in expressions[i].values);
      }
    }
  }

  method GetExistingPreferredArchitectures(pod: Pod) returns (seen: set<string>)
    ensures seen == Existing(pod.State().directives.preferred)
  {
    seen := {};
    for i := 0 to |pod.preferred|
      invariant seen + Existing(pod.preferred[i..]) == Existing(pod.preferred)
    {
      assert pod.preferred[i..][1..] == pod.preferred[i + 1..];
      var values := ArchValuesOf(pod.preferred[i].preference.expressions);
      seen := seen + values;
    }
  }

  lemma {:induction false} CollectStep(platforms: seq<Platform>, i: nat, terms: seq<PreferredTerm>, seen: set<string>, text: string, source: string)
    requires i < |platforms|
    ensures var platform := platforms[i];
            var applied := platform.architecture !in seen;
            && terms + NewTerms(platforms[i..], seen) ==
               (if applied then terms + [PreferredFor(platform)] else terms)
               + NewTerms(platforms[i + 1..], seen + {platform.architecture})
            && TrackedAll(text, platforms[i..], seen, source) ==
               TrackedAll(Tracked(text, Entry(platform, source, applied)), platforms[i + 1..],
                          seen + {platform.architecture}, source)
  {
    assert platforms[i..][1..] == platforms[i + 1..];
    if platforms[i].architecture in seen {
      assert seen + {platforms[i].architecture} == seen;
    }
  }

  /** The loop of `SetPreferredArchNodeAffinity`: collect the new terms and track every listing. */
  method CollectPreferredTerms(pod: Pod, platforms: seq<Platform>, existing: set<string>, source: string)
    returns (terms: seq<PreferredTerm>)
    modifies pod`annotations
    ensures terms == NewTerms(platforms, existing)
    ensures pod.State() ==
            WithSourcesText(old(pod.State()), TrackedAll(SourcesText(old(pod.State())), platforms, existing, source))
  {
    terms := [];
    var seen := existing;
    ghost var first, allTerms := pod.annotations, NewTerms(platforms, existing);
    ghost var text := SourcesText(pod.State());
    ghost var allText := TrackedAll(text, platforms, existing, source);
    assert platforms[0..] == platforms;
    for i := 0 to |platforms|
      invariant pod.annotations == Retexted(first, text) && text == SourcesText(pod.State())
      invariant terms + NewTerms(platforms[i..], seen) == allTerms
      invariant TrackedAll(text, platforms[i..], seen, source) == allText
    {
      CollectStep(platforms, i, terms, seen, text, source);
      var applied := platforms[i].architecture !in seen;
      TrackAffinitySource(pod, platforms[i], source, applied);
      ghost var next := Tracked(text, Entry(platforms[i], source, applied));
      RetextedTwice(first, text, next);
      text := next;
      if applied {
        terms := terms + [PreferredFor(platforms[i])];
        seen := seen + {platforms[i].architecture};
      } else {
        assert seen + {platforms[i].architecture} == seen;
      }
    }
  }

  method SetPreferredArchNodeAffinity(pod: Pod, platforms: seq<Platform>, source: string)
    modifies pod`preferred, pod`annotations, pod`labels
    ensures pod.State() == SetPreferred(old(pod.State()), platforms, source)
  {
    var seen := GetExistingPreferredArchitectures(pod);
    var terms := CollectPreferredTerms(pod, platforms, seen, source);
    if terms != [] {
      pod.preferred := pod.preferred + terms;
      pod.EnsureLabel(PreferredNodeAffinity, ValueSet);
    } else {
      assert old(pod.preferred) + [] == old(pod.preferred);
    }
  }

  method IsPreferredAffinityConfiguredForArchitecture(pod: Pod) returns (configured: bool)
    ensures configured <==> ArchPreferred(pod.State().directives.preferred)
  {
    for i := 0 to |pod.preferred|
      invariant forall j | 0 <= j < i :: !NamesKey(pod.preferred[j].preference, Arch)
    {
      var found := NamesKeyScan(pod.preferred[i].preference.expressions, Arch);
      if found {
        assert NamesKey(pod.preferred[i].preference, Arch);
        return true;
      }
    }
    return false;
  }
}
