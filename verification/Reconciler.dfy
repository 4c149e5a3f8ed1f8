/**
 One pass of the pod controller over a persisted pod (internal/controller/podplacement/
 pod_reconciler.go) and the runs it makes: every gated pod is processed again until it is ungated.
 */
module Reconciler {
  import opened Decimal
  import opened Keys
  import opened Kubernetes
  import opened PodModel
  import opened PodObject
  import opened Configs
  import opened CelEvaluator
  import opened Placement
  import opened Preferences
  import opened Affinity

  // ---------- Which pods are left alone ----------

  predicate OwnedByDaemonSet(owners: seq<OwnerReference>) {
    exists i | 0 <= i < |owners| :: owners[i].kind == "DaemonSet" && owners[i].isController
  }

  predicate NeedsGate(ppcs: seq<Ppc>) {
    exists i | 0 <= i < |ppcs| :: ppcs[i].scoring.Some? || ppcs[i].cel.Some?
  }

  predicate ScoringEnabled(cppc: Option<Cppc>) {
    cppc.Some? && cppc.value.scoring.Some?
  }

  /** The checks of `shouldIgnorePod` before it looks at the architecture. */
  predicate OutOfScope(p: PodState, operatorNamespace: string) {
    || operatorNamespace == p.namespace
    || "kube-" <= p.namespace
    || p.nodeName != ""
    || Master in p.directives.nodeSelector || ControlPlane in p.directives.nodeSelector
    || OwnedByDaemonSet(p.owners)
  }

  predicate ShouldIgnore(p: PodState, operatorNamespace: string, cppc: Option<Cppc>, matching: seq<Ppc>) {
    || OutOfScope(p, operatorNamespace)
    || (&& ArchConfigured(p.directives)
        && (ArchPreferred(p.directives.preferred) || (!ScoringEnabled(cppc) && !NeedsGate(matching))))
  }

  /** The label `shouldIgnorePod` may write on its way. */
  function IgnoreRelabel(p: PodState, operatorNamespace: string): PodState {
    if OutOfScope(p, operatorNamespace) then p else ConfiguredRelabel(p)
  }

  // ---------- One pass ----------

  /** What listing the PodPlacementConfigs gave: an error, or the matching ones together with the
      orders in which the two sorts of the pass left them. */
  datatype Listing =
    | ListFailed(message: string)
    | Listed(matching: seq<Ppc>, sorted: seq<Ppc>, resorted: seq<Ppc>)

  /** Everything a pass reads from outside the pod, and whether its update fails for a reason that has
      nothing to do with what it says, such as a newer revision of the pod. */
  datatype Pass = Pass(
    operatorNamespace: string,
    cppc: Option<Cppc>,
    listing: Listing,
    verdict: string -> Verdict,
    inspection: Inspection,
    updateFails: bool)
  {
    function Decision(): Option<seq<string>> {
      if listing.Listed? then FirstDecision(listing.sorted, verdict) else None
    }

    function Fallback(): string {
      if cppc.Some? then cppc.value.fallback else ""
    }

    function Sources(): seq<Source>
      requires listing.Listed?
    {
      PpcSources(listing.sorted) + CppcSources(cppc)
    }

    function Resources(): seq<Source>
      requires listing.Listed?
    {
      PpcSources(listing.resorted) + CppcSources(cppc)
    }
  }

  /** The preferred-affinity part of `processPod`. */
  function Prefer(p: PodState, preferredAtStart: bool, i: Pass): PodState
    requires i.listing.Listed?
  {
    if preferredAtStart then SkipSources(p, i.Resources()) else ApplySources(p, i.Sources())
  }

  /** Image inspection, the retry counter and the fallback architecture. */
  function ImagePath(p: PodState, i: Pass): PodState {
    var (q, failed) := SetArchRequirement(p, i.inspection);
    if !failed then Ungate(q)
    else
      var r := HandleError(q, i.inspection.message);
      if !MaxRetries(r) then r
      else Ungate(if i.Fallback() != "" then SetFallback(r, i.Fallback()) else r)
  }

  /** `processPod` */
  function Process(p: PodState, i: Pass): PodState {
    if i.listing.ListFailed? then HandleError(p, i.listing.message)
    else
      var q := IgnoreRelabel(p, i.operatorNamespace);
      if ShouldIgnore(p, i.operatorNamespace, i.cppc, i.listing.matching) then Ungate(q)
      else
        var r := Prefer(PlaceFirst(q, i.listing.sorted, i.verdict), ArchPreferred(p.directives.preferred), i);
        if i.Decision().Some? then Ungate(r) else ImagePath(r, i)
  }

  /** The API server takes the update that the pass ends with. */
  predicate Accepted(p: PodState, i: Pass) {
    !i.updateFails && LegalUpdate(p.directives, Process(p, i).directives)
  }

  /** `Reconcile`, on the stored pod: without the gate it is not touched, and an update that is not
      accepted leaves it as it was, counter and all. */
  function Reconcile(p: PodState, i: Pass): PodState {
    if p.Gated() && Accepted(p, i) then Process(p, i) else p
  }

  function Run(p: PodState, passes: seq<Pass>): PodState
    decreases passes
  {
    if passes == [] then p else Run(Reconcile(p, passes[0]), passes[1..])
  }

  // ---------- The in-place code ----------

  datatype ListResult = ListError(message: string) | ListOk(items: seq<Ppc>)

  /** What the pass calls out to: the cached and the direct list, the label selectors, the CEL
      evaluator and the image inspector. */
  datatype World = World(
    operatorNamespace: string,
    cppc: Option<Cppc>,
    cached: ListResult,
    direct: ListResult,
    selects: Ppc -> bool,
    verdict: string -> Verdict,
    inspect: ContainerImage -> ImageResult,
    updateFails: bool)

  function Filtered(items: seq<Ppc>, selects: Ppc -> bool): seq<Ppc> {
    if items == [] then []
    else
      var last := items[|items| - 1];
      Filtered(items[..|items| - 1], selects) + if selects(last) then [last] else []
  }

  /** An empty cache is double-checked against the API server. */
  function ListConfigs(w: World): ListResult {
    if w.cached == ListOk([]) then w.direct else w.cached
  }

  /** The pass took exactly the steps the world allowed it to. */
  ghost predicate IsPassOf(i: Pass, w: World, p: PodState) {
    && i.operatorNamespace == w.operatorNamespace && i.cppc == w.cppc && i.verdict == w.verdict
    && i.updateFails == w.updateFails
    && match ListConfigs(w)
       case ListError(m) => i.listing == ListFailed(m)
       case ListOk(items) =>
         && i.listing.Listed?
         && i.listing.matching == Filtered(items, w.selects)
         && (!ShouldIgnore(p, i.operatorNamespace, i.cppc, i.listing.matching) ==>
               && IsSortOf(i.listing.sorted, i.listing.matching)
               && IsSortOf(i.listing.resorted, i.listing.matching)
               && (i.Decision().None? && !ArchConfigured(p.directives) ==>
                     IsInspection(ImagesOf(p.AllContainers()), w.inspect, i.inspection)))
  }

  method FilterMatchingPpcs(items: seq<Ppc>, selects: Ppc -> bool) returns (matching: seq<Ppc>)
    ensures matching == Filtered(items, selects)
  {
    matching := [];
    for k := 0 to |items|
      invariant matching == Filtered(items[..k], selects)
    {
      assert items[..k + 1][..k] == items[..k];
      if selects(items[k]) {
        matching := matching + [items[k]];
      }
    }
    assert items[..|items|] == items;
  }

  method HasMatchingPpcWithPlugin(ppcs: seq<Ppc>) returns (found: bool)
    ensures found <==> NeedsGate(ppcs)
  {
    for k := 0 to |ppcs|
      invariant forall j | 0 <= j < k :: ppcs[j].scoring.None? && ppcs[j].cel.None?
    {
      if ppcs[k].scoring.Some? || ppcs[k].cel.Some? {
        return true;
      }
    }
    return false;
  }

  method IsFromDaemonSet(owners: seq<OwnerReference>) returns (found: bool)
    ensures found <==> OwnedByDaemonSet(owners)
  {
    for k := 0 to |owners|
      invariant forall j | 0 <= j < k :: !(owners[j].kind == "DaemonSet" && owners[j].isController)
    {
      if owners[k].kind == "DaemonSet" && owners[k].isController {
        return true;
      }
    }
    return false;
  }

  method ShouldIgnorePod(pod: Pod, operatorNamespace: string, cppc: Option<Cppc>, matching: seq<Ppc>) returns (ignore: bool)
    modifies pod`labels
    ensures ignore <==> ShouldIgnore(old(pod.State()), operatorNamespace, cppc, matching)
    ensures pod.State() == IgnoreRelabel(old(pod.State()), operatorNamespace)
  {
    var daemon := IsFromDaemonSet(pod.owners);
    if operatorNamespace == pod.ns || "kube-" <= pod.ns || pod.nodeName != ""
       || Master in pod.nodeSelector || ControlPlane in pod.nodeSelector || daemon {
      return true;
    }
    var configured := IsNodeSelectorConfiguredForArchitecture(pod);
    if !configured {
      return false;
    }
    var preferred := IsPreferredAffinityConfiguredForArchitecture(pod);
    if preferred {
      return true;
    }
    var plugin := HasMatchingPpcWithPlugin(matching);
    return !(cppc.Some? && cppc.value.scoring.Some?) && !plugin;
  }

  method ApplyPpcScoring(pod: Pod, sorted: seq<Ppc>)
    modifies pod`preferred, pod`annotations, pod`labels
    ensures pod.State() == ApplySources(old(pod.State()), PpcSources(sorted))
  {
    for k := 0 to |sorted|
      invariant ApplySources(pod.State(), PpcSources(sorted[k..])) == ApplySources(old(pod.State()), PpcSources(sorted))
    {
      assert sorted[k..][1..] == sorted[k + 1..];
      if sorted[k].scoring.Some? {
        var source := Source("PodPlacementConfig-" + sorted[k].name, sorted[k].scoring.value);
        assert PpcSources(sorted[k..]) == [source] + PpcSources(sorted[k + 1..]);
        SetPreferredArchNodeAffinity(pod, source.platforms, source.name);
      } else {
        assert PpcSources(sorted[k..]) == PpcSources(sorted[k + 1..]);
      }
    }
  }

  method TrackSkipped(pod: Pod, platforms: seq<Platform>, source: string)
    modifies pod`annotations
    ensures pod.State() ==
            WithSourcesText(old(pod.State()), SkippedText(SourcesText(old(pod.State())), platforms, source))
  {
    ghost var text := SourcesText(pod.State());
    for k := 0 to |platforms|
      invariant pod.State() == WithSourcesText(old(pod.State()), text) && text == SourcesText(pod.State())
      invariant SkippedText(text, platforms[k..], source) == SkippedText(SourcesText(old(pod.State())), platforms, source)
    {
      assert platforms[k..][1..] == platforms[k + 1..];
      TrackAffinitySource(pod, platforms[k], source, false);
      text := Tracked(text, Entry(platforms[k], source, false));
    }
  }

  /** One configuration of the listing: tracked when it scores, passed over when it does not. */
  lemma SkipStep(p: PodState, sorted: seq<Ppc>, k: nat, rest: seq<Source>)
    requires k < |sorted|
    ensures var scoring := sorted[k].scoring;
            SkipSources(p, PpcSources(sorted[k..]) + rest) ==
            SkipSources(if scoring.None? then p
                        else WithSourcesText(p, SkippedText(SourcesText(p), scoring.value, "PodPlacementConfig-" + sorted[k].name)),
                        PpcSources(sorted[k + 1..]) + rest)
  {
    assert sorted[k..][1..] == sorted[k + 1..];
    if sorted[k].scoring.Some? {
      var source := Source("PodPlacementConfig-" + sorted[k].name, sorted[k].scoring.value);
      var all := PpcSources(sorted[k..]) + rest;
      assert all[0] == source && all[1..] == PpcSources(sorted[k + 1..]) + rest;
    } else {
      assert PpcSources(sorted[k..]) == PpcSources(sorted[k + 1..]);
    }
  }

  method TrackSkippedMatchingConfigs(pod: Pod, cppc: Option<Cppc>, sorted: seq<Ppc>)
    modifies pod`annotations
    ensures pod.State() == SkipSources(old(pod.State()), PpcSources(sorted) + CppcSources(cppc))
  {
    for k := 0 to |sorted|
      invariant SkipSources(pod.State(), PpcSources(sorted[k..]) + CppcSources(cppc)) ==
                SkipSources(old(pod.State()), PpcSources(sorted) + CppcSources(cppc))
    {
      SkipStep(pod.State(), sorted, k, CppcSources(cppc));
      if sorted[k].scoring.Some? {
        TrackSkipped(pod, sorted[k].scoring.value, "PodPlacementConfig-" + sorted[k].name);
      }
    }
    assert PpcSources([]) + CppcSources(cppc) == CppcSources(cppc);
    if cppc.Some? && cppc.value.scoring.Some? {
      TrackSkipped(pod, cppc.value.scoring.value, "ClusterPodPlacementConfig");
      assert CppcSources(cppc)[1..] == [];
    }
  }

  lemma {:induction false} ApplySourcesConcat(p: PodState, s: seq<Source>, t: seq<Source>)
    ensures ApplySources(p, s + t) == ApplySources(ApplySources(p, s), t)
    decreases s
  {
    if s == [] {
      assert s + t == t;
    } else {
      assert (s + t)[1..] == s[1..] + t;
      ApplySourcesConcat(SetPreferred(p, s[0].platforms, s[0].name), s[1..], t);
    }
  }

  method MaxRetriesReached(pod: Pod) returns (reached: bool)
    ensures reached <==> MaxRetries(pod.State())
  {
    if pod.labels.None? {
      return false;
    }
    var text := "";
    if InspectionErrorCount in pod.labels.value {
      text := pod.labels.value[InspectionErrorCount];
    }
    var count := ParseInt(text, 32);
    if count.None? {
      return true;
    }
    return count.value >= MaxRetryCount;
  }

  lemma FallbackKeepsMaxRetries(p: PodState, architecture: string)
    requires p.labels.Some?
    ensures MaxRetries(SetFallback(p, architecture)) == MaxRetries(p)
  {
  }

  method ProcessImages(pod: Pod, w: World) returns (ghost inspection: Inspection)
    modifies pod
    ensures !ArchConfigured(old(pod.State()).directives) ==> IsInspection(ImagesOf(pod.State().AllContainers()), w.inspect, inspection)
    ensures forall i: Pass | i.cppc == w.cppc && i.inspection == inspection ::
              pod.State() == ImagePath(old(pod.State()), i)
  {
    var failure;
    failure, inspection := SetNodeAffinityArchRequirement(pod, w.inspect);
    if failure.Some? {
      pod.HandleError(failure.value);
    }
    var exhausted := MaxRetriesReached(pod);
    if exhausted && failure.Some? {
      if w.cppc.Some? && w.cppc.value.fallback != "" {
        FallbackKeepsMaxRetries(pod.State(), w.cppc.value.fallback);
        SetRequiredNodeAffinityToFallbackArchitecture(pod, w.cppc.value.fallback);
      }
    }
    exhausted := MaxRetriesReached(pod);
    if failure.None? || exhausted {
      pod.RemoveSchedulingGate();
    }
  }

  /** The cached list, double-checked with a direct one when it is empty: that there are none is only
      ever the API server's own word. */
  method ListPpcs(w: World) returns (r: ListResult)
    ensures r == ListConfigs(w)
    ensures w.cached.ListError? || w.cached.items != [] ==> r == w.cached
    ensures w.cached.ListOk? && w.cached.items == [] ==> r == w.direct
  {
    r := w.cached;
    if r.ListOk? && |r.items| == 0 {
      r := w.direct;
    }
  }

  /** Preferred affinity from the configurations, or only its audit trail when the pod had some. */
  method ProcessPreferences(pod: Pod, preferredAtStart: bool, cppc: Option<Cppc>, sorted: seq<Ppc>, resorted: seq<Ppc>)
    modifies pod`preferred, pod`annotations, pod`labels
    ensures pod.State() ==
            if preferredAtStart then SkipSources(old(pod.State()), PpcSources(resorted) + CppcSources(cppc))
            else ApplySources(old(pod.State()), PpcSources(sorted) + CppcSources(cppc))
  {
    if preferredAtStart {
      TrackSkippedMatchingConfigs(pod, cppc, resorted);
      return;
    }
    ApplySourcesConcat(pod.State(), PpcSources(sorted), CppcSources(cppc));
    ApplyPpcScoring(pod, sorted);
    if cppc.Some? && cppc.value.scoring.Some? {
      assert CppcSources(cppc)[1..] == [];
      SetPreferredArchNodeAffinity(pod, cppc.value.scoring.value, "ClusterPodPlacementConfig");
    }
  }

  /** The part of `processPod` for pods that are not left alone. */
  method PlacePod(pod: Pod, w: World, matching: seq<Ppc>) returns (ghost i: Pass)
    modifies pod
    ensures i.operatorNamespace == w.operatorNamespace && i.cppc == w.cppc && i.verdict == w.verdict
    ensures i.updateFails == w.updateFails && i.listing.Listed? && i.listing.matching == matching
    ensures IsSortOf(i.listing.sorted, matching) && IsSortOf(i.listing.resorted, matching)
    ensures i.Decision().None? && !ArchConfigured(old(pod.State()).directives) ==>
              IsInspection(ImagesOf(old(pod.State()).AllContainers()), w.inspect, i.inspection)
    ensures var p := old(pod.State());
            var r := Prefer(PlaceFirst(p, i.listing.sorted, w.verdict), ArchPreferred(p.directives.preferred), i);
            pod.State() == if i.Decision().Some? then Ungate(r) else ImagePath(r, i)
  {
    var preferredAtStart := IsPreferredAffinityConfiguredForArchitecture(pod);
    var sorted := SortByPriority(matching);
    var resorted := SortByPriority(sorted);
    i := Pass(w.operatorNamespace, w.cppc, Listed(matching, sorted, resorted), w.verdict, Inspected([]), w.updateFails);
    var celApplied := ApplyFirstCel(sorted, pod, w.verdict);
    ProcessPreferences(pod, preferredAtStart, w.cppc, sorted, resorted);
    if celApplied {
      pod.RemoveSchedulingGate();
      return;
    }
    ghost var inspection := ProcessImages(pod, w);
    i := i.(inspection := inspection);
  }

  method ProcessPod(pod: Pod, w: World) returns (ghost i: Pass)
    modifies pod
    ensures IsPassOf(i, w, old(pod.State()))
    ensures pod.State() == Process(old(pod.State()), i)
  {
    i := Pass(w.operatorNamespace, w.cppc, ListFailed(""), w.verdict, Inspected([]), w.updateFails);
    var listed := ListPpcs(w);
    if listed.ListError? {
      pod.HandleError(listed.message);
      i := i.(listing := ListFailed(listed.message));
      return;
    }
    var matching := FilterMatchingPpcs(listed.items, w.selects);
    i := i.(listing := Listed(matching, matching, matching));
    var ignore := ShouldIgnorePod(pod, w.operatorNamespace, w.cppc, matching);
    if ignore {
      pod.RemoveSchedulingGate();
      return;
    }
    i := PlacePod(pod, w, matching);
  }

  /** One reconciliation of the stored pod, up to the API server's answer. */
  method ReconcilePod(stored: PodState, w: World) returns (after: PodState, ghost i: Pass)
    ensures stored.Gated() ==> IsPassOf(i, w, stored)
    ensures after == Reconcile(stored, i)
  {
    var pod := new Pod(stored);
    i := Pass(w.operatorNamespace, w.cppc, ListFailed(""), w.verdict, Inspected([]), w.updateFails);
    var gated := pod.HasGate(SchedulingGate);
    if !gated {
      return stored, i;
    }
    i := ProcessPod(pod, w);
    if w.updateFails || !LegalUpdate(stored.directives, pod.State().directives) {
      return stored, i;
    }
    return pod.State(), i;
  }
}
