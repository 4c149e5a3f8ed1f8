/**
 What the operator promises, on admission and on each pass, with every condition written out on the
 pod, the configurations and the images themselves.
 */
module Promises {
  import opened Decimal
  import opened Keys
  import opened Kubernetes
  import opened PodModel
  import opened Configs
  import opened CelEvaluator
  import opened Placement
  import opened Preferences
  import opened Affinity
  import opened Reconciler
  import opened Runs
  import opened Webhook
  import StringSets

  // ---------- Which pods are touched ----------

  /** An ordinary pod of an ordinary namespace that is still to be scheduled. */
  predicate InReach(p: PodState, operatorNamespace: string) {
    && p.namespace != operatorNamespace
    && !(|p.namespace| >= 5 && p.namespace[..5] == "kube-")
    && p.nodeName == ""
    && Master !in p.directives.nodeSelector && ControlPlane !in p.directives.nodeSelector
    && !exists k | 0 <= k < |p.owners| :: p.owners[k].kind == "DaemonSet" && p.owners[k].isController
  }

  predicate TermFixesArch(t: Term) {
    exists k | 0 <= k < |t.expressions| :: t.expressions[k].key == Arch
  }

  /** The user has chosen the architecture: by the node selector, or in every required term. */
  predicate FixesArch(d: Directives) {
    || Arch in d.nodeSelector
    || (d.required.Some? && forall j | 0 <= j < |d.required.value| :: TermFixesArch(d.required.value[j]))
  }

  /** The user, or an earlier pass, prefers architectures. */
  predicate LikesArch(d: Directives) {
    exists j | 0 <= j < |d.preferred| :: TermFixesArch(d.preferred[j].preference)
  }

  /** The cluster scores architectures, or a matching configuration scores or places. */
  predicate AnyPlugin(cppc: Option<Cppc>, matching: seq<Ppc>) {
    || (cppc.Some? && cppc.value.scoring.Some?)
    || exists k | 0 <= k < |matching| :: matching[k].scoring.Some? || matching[k].cel.Some?
  }

  /** The operator has something to do for the pod. */
  predicate Concerned(p: PodState, operatorNamespace: string, cppc: Option<Cppc>, matching: seq<Ppc>) {
    && InReach(p, operatorNamespace)
    && !(FixesArch(p.directives) && (LikesArch(p.directives) || !AnyPlugin(cppc, matching)))
  }

  lemma ConcernedMeans(p: PodState, operatorNamespace: string, cppc: Option<Cppc>, matching: seq<Ppc>)
    ensures Concerned(p, operatorNamespace, cppc, matching) <==> !ShouldIgnore(p, operatorNamespace, cppc, matching)
  {
    assert "kube-" <= p.namespace <==> |p.namespace| >= 5 && p.namespace[..5] == "kube-";
    assert forall t: Term :: TermFixesArch(t) <==> NamesKey(t, Arch);
  }

  /** Admission gates exactly the pods the operator is concerned with, once. */
  lemma AdmissionGatesIff(p: PodState, i: Admission)
    ensures Admit(p, i).gates ==
            p.gates + if Concerned(p, i.operatorNamespace, i.cppc, i.matching) && SchedulingGate !in p.gates then [SchedulingGate] else []
  {
    var q := IgnoreRelabel(Labelled(p, i), i.operatorNamespace);
    PlaceFirstFrame(q, i.sorted, i.verdict);
    ConcernedMeans(Labelled(p, i), i.operatorNamespace, i.cppc, i.matching);
    assert Concerned(Labelled(p, i), i.operatorNamespace, i.cppc, i.matching) <==>
           Concerned(p, i.operatorNamespace, i.cppc, i.matching);
    assert p.gates + [] == p.gates;
  }

  /** A pass that finds a gated pod it is not concerned with takes the gate off and leaves the rest. */
  lemma PassLeavesAlone(p: PodState, i: Pass)
    requires p.Gated() && i.listing.Listed? && !Concerned(p, i.operatorNamespace, i.cppc, i.listing.matching)
    ensures !Process(p, i).Gated() && Process(p, i).directives == p.directives && Process(p, i).annotations == p.annotations
    ensures Process(p, i).Label(SchedulingGate) == Some("removed")
    ensures Process(p, i).Label(NodeAffinity) ==
            if InReach(p, i.operatorNamespace) && Arch in p.directives.nodeSelector then Some("not-set") else p.Label(NodeAffinity)
  {
    ConcernedMeans(p, i.operatorNamespace, i.cppc, i.listing.matching);
  }

  /** A pass that cannot list the configurations notes that, and leaves gate and directives. */
  lemma FailedListingTells(p: PodState, i: Pass)
    requires i.listing.ListFailed?
    ensures var q, m := Process(p, i), i.listing.message;
            && q.gates == p.gates && q.directives == p.directives && q.Label(InspectionError) == Some("")
            && InspectionError in q.annotations && q.annotations[InspectionError] == (if |m| > 256 then m[..256] else m)
  {
  }

  // ---------- Who decides the placement ----------

  /** The configuration places the pod on these architectures: those of its first rule that is true, or
      its fallback when no rule is true and not all of them failed. */
  predicate Decides(ppc: Ppc, verdict: string -> Verdict, architectures: seq<string>) {
    && ppc.cel.Some? && architectures != []
    && var rules := ppc.cel.value.rules;
       || (exists k | 0 <= k < |rules| ::
             && verdict(rules[k].expression) == Evaluated(true) && rules[k].architectures == architectures
             && forall j | 0 <= j < k :: verdict(rules[j].expression) != Evaluated(true))
       || (&& (forall k | 0 <= k < |rules| :: verdict(rules[k].expression) != Evaluated(true))
           && (rules == [] || exists k | 0 <= k < |rules| :: verdict(rules[k].expression) != Errored)
           && ppc.cel.value.fallback == architectures)
  }

  lemma DecisionMeans(ppc: Ppc, verdict: string -> Verdict, architectures: seq<string>)
    ensures Decision(ppc, verdict) == Some(architectures) <==> Decides(ppc, verdict, architectures)
  {
    if ppc.cel.Some? {
      var rules := ppc.cel.value.rules;
      var first := FirstTrue(rules, verdict);
      if k :| 0 <= k < |rules| && verdict(rules[k].expression) == Evaluated(true)
              && forall j | 0 <= j < k :: verdict(rules[j].expression) != Evaluated(true) {
        assert first == Some(k);
      }
    }
  }

  lemma {:induction false} FirstDecisionAt(sorted: seq<Ppc>, verdict: string -> Verdict, k: nat)
    requires k < |sorted| && Decision(sorted[k], verdict).Some?
    requires forall j | 0 <= j < k :: Decision(sorted[j], verdict).None?
    ensures FirstDecision(sorted, verdict) == Decision(sorted[k], verdict)
  {
    if k > 0 {
      assert Decision(sorted[0], verdict).None?;
      FirstDecisionAt(sorted[1..], verdict, k - 1);
    }
  }

  lemma {:induction false} SomeoneDecidesFirst(sorted: seq<Ppc>, verdict: string -> Verdict, m: nat) returns (k: nat)
    requires m < |sorted| && Decision(sorted[m], verdict).Some?
    ensures k <= m && Decision(sorted[k], verdict).Some? && forall j | 0 <= j < k :: Decision(sorted[j], verdict).None?
    decreases m
  {
    if j :| 0 <= j < m && Decision(sorted[j], verdict).Some? {
      k := SomeoneDecidesFirst(sorted, verdict, j);
    } else {
      k := m;
    }
  }

  /** `x` decides, and every other configuration that decides has a lower priority. */
  ghost predicate Prevails(x: Ppc, matching: seq<Ppc>, verdict: string -> Verdict, architectures: seq<string>) {
    && x in matching && Decides(x, verdict, architectures)
    && forall y, b | y in matching && y != x && Decides(y, verdict, b) :: y.priority < x.priority
  }

  /** The highest priority wins the placement, however the configurations were listed and sorted. */
  lemma HighestPriorityDecides(sorted: seq<Ppc>, matching: seq<Ppc>, verdict: string -> Verdict, x: Ppc, architectures: seq<string>)
    requires IsSortOf(sorted, matching) && Prevails(x, matching, verdict, architectures)
    ensures FirstDecision(sorted, verdict) == Some(architectures)
  {
    DecisionMeans(x, verdict, architectures);
    assert x in multiset(matching) && x in multiset(sorted);
    var m :| 0 <= m < |sorted| && sorted[m] == x;
    var k := SomeoneDecidesFirst(sorted, verdict, m);
    FirstDecisionAt(sorted, verdict, k);
    var y := sorted[k];
    assert y.priority >= x.priority;
    assert y in multiset(sorted) && y in multiset(matching);
    DecisionMeans(y, verdict, Decision(y, verdict).value);
  }

  lemma NobodyDecides(sorted: seq<Ppc>, matching: seq<Ppc>, verdict: string -> Verdict)
    requires IsSortOf(sorted, matching)
    requires forall y, b | y in matching :: !Decides(y, verdict, b)
    ensures FirstDecision(sorted, verdict) == None
  {
    forall j | 0 <= j < |sorted| ensures Decision(sorted[j], verdict).None? {
      assert sorted[j] in multiset(sorted) && sorted[j] in multiset(matching);
      if Decision(sorted[j], verdict).Some? {
        DecisionMeans(sorted[j], verdict, Decision(sorted[j], verdict).value);
      }
    }
    NoneDecides(sorted, verdict);
  }

  lemma {:induction false} NoneDecides(sorted: seq<Ppc>, verdict: string -> Verdict)
    requires forall j | 0 <= j < |sorted| :: Decision(sorted[j], verdict).None?
    ensures FirstDecision(sorted, verdict) == None
  {
    if sorted != [] {
      NoneDecides(sorted[1..], verdict);
    }
  }

  lemma PrevailsIsPlugin(x: Ppc, cppc: Option<Cppc>, matching: seq<Ppc>, verdict: string -> Verdict, architectures: seq<string>)
    requires Prevails(x, matching, verdict, architectures)
    ensures AnyPlugin(cppc, matching)
  {
    var k :| 0 <= k < |matching| && matching[k] == x;
    assert matching[k].cel.Some?;
  }

  /** A new pod in reach that prefers no architecture leaves admission gated and placed as the prevailing
      configuration says, whatever architecture its user had chosen. */
  lemma AdmissionPlaces(p: PodState, w: WebhookWorld, i: Admission, x: Ppc, architectures: seq<string>)
    requires IsAdmissionOf(i, w, p) && Prevails(x, i.matching, i.verdict, architectures)
    requires InReach(p, i.operatorNamespace) && !LikesArch(p.directives)
    ensures Admit(p, i).Gated() && Admit(p, i).directives == Place(p.directives, architectures)
    ensures Admit(p, i).Label(NodeAffinity) == Some("overriden") && Admit(p, i).Label(SchedulingGate) == Some("gated")
  {
    PrevailsIsPlugin(x, i.cppc, i.matching, i.verdict, architectures);
    ConcernedMeans(Labelled(p, i), i.operatorNamespace, i.cppc, i.matching);
    HighestPriorityDecides(i.sorted, i.matching, i.verdict, x, architectures);
    AdmitPlaces(p, i);
  }

  /** So does a pass, on what it submits, for every pod it is concerned with. */
  lemma PassPlaces(p: PodState, w: World, i: Pass, x: Ppc, architectures: seq<string>)
    requires p.Gated() && IsPassOf(i, w, p) && i.listing.Listed?
    requires Concerned(p, i.operatorNamespace, i.cppc, i.listing.matching)
    requires Prevails(x, i.listing.matching, i.verdict, architectures)
    ensures !Process(p, i).Gated()
    ensures SameRequired(Place(p.directives, architectures), Process(p, i).directives)
  {
    ConcernedMeans(p, i.operatorNamespace, i.cppc, i.listing.matching);
    HighestPriorityDecides(i.listing.sorted, i.listing.matching, i.verdict, x, architectures);
    PreparedFrame(p, i);
  }

  // ---------- Where the images run ----------

  predicate ContainerRunsOn(c: Container, inspect: ContainerImage -> ImageResult, a: string) {
    var r := inspect(ContainerImage("//" + c.image, c.pullAlways));
    r.ImageArchitectures? && a in r.architectures
  }

  predicate ContainerFails(c: Container, inspect: ContainerImage -> ImageResult) {
    inspect(ContainerImage("//" + c.image, c.pullAlways)).ImageError?
  }

  /** Every container and every init container of the pod runs on the architecture. */
  predicate PodRunsOn(p: PodState, inspect: ContainerImage -> ImageResult, a: string) {
    && (p.containers != [] || p.initContainers != [])
    && (forall k | 0 <= k < |p.containers| :: ContainerRunsOn(p.containers[k], inspect, a))
    && (forall k | 0 <= k < |p.initContainers| :: ContainerRunsOn(p.initContainers[k], inspect, a))
  }

  predicate SomeContainerFails(p: PodState, inspect: ContainerImage -> ImageResult) {
    || (exists k | 0 <= k < |p.containers| :: ContainerFails(p.containers[k], inspect))
    || (exists k | 0 <= k < |p.initContainers| :: ContainerFails(p.initContainers[k], inspect))
  }

  /** The images of a pod are those of its containers and its init containers. */
  lemma ImagesAre(p: PodState, c: ContainerImage)
    ensures c in ImagesOf(p.AllContainers()) <==>
            || (exists k | 0 <= k < |p.containers| :: c == ContainerImage("//" + p.containers[k].image, p.containers[k].pullAlways))
            || (exists k | 0 <= k < |p.initContainers| ::
                  c == ContainerImage("//" + p.initContainers[k].image, p.initContainers[k].pullAlways))
  {
    var all := p.AllContainers();
    if k :| 0 <= k < |p.containers| && c == ContainerImage("//" + p.containers[k].image, p.containers[k].pullAlways) {
      assert all[k] == p.containers[k];
    }
    if k :| 0 <= k < |p.initContainers| && c == ContainerImage("//" + p.initContainers[k].image, p.initContainers[k].pullAlways) {
      assert all[|p.containers| + k] == p.initContainers[k];
    }
    if c in ImagesOf(all) {
      var k :| 0 <= k < |all| && c == ImageOf(all[k]);
      if k < |p.containers| {
        assert all[k] == p.containers[k];
      } else {
        assert all[k] == p.initContainers[k - |p.containers|];
      }
    }
  }

  lemma ContainersAreInspected(p: PodState, k: nat)
    requires k < |p.containers| + |p.initContainers|
    ensures var c := if k < |p.containers| then p.containers[k] else p.initContainers[k - |p.containers|];
            ContainerImage("//" + c.image, c.pullAlways) in ImagesOf(p.AllContainers())
  {
    var c := if k < |p.containers| then p.containers[k] else p.initContainers[k - |p.containers|];
    ImagesAre(p, ContainerImage("//" + c.image, c.pullAlways));
  }

  lemma CommonMeans(p: PodState, inspect: ContainerImage -> ImageResult, a: string)
    ensures Common(ImagesOf(p.AllContainers()), inspect, a) <==> PodRunsOn(p, inspect, a)
  {
    var images := ImagesOf(p.AllContainers());
    forall k | 0 <= k < |p.containers|
      ensures ContainerImage("//" + p.containers[k].image, p.containers[k].pullAlways) in images
    {
      ContainersAreInspected(p, k);
    }
    forall k | 0 <= k < |p.initContainers|
      ensures ContainerImage("//" + p.initContainers[k].image, p.initContainers[k].pullAlways) in images
    {
      ContainersAreInspected(p, |p.containers| + k);
    }
    if PodRunsOn(p, inspect, a) {
      forall c | c in images ensures inspect(c).ImageArchitectures? && a in inspect(c).architectures {
        ImagesAre(p, c);
        assert forall k | 0 <= k < |p.containers| :: ContainerRunsOn(p.containers[k], inspect, a);
        assert forall k | 0 <= k < |p.initContainers| :: ContainerRunsOn(p.initContainers[k], inspect, a);
      }
      ContainersAreInspected(p, 0);
    }
    if Common(images, inspect, a) {
      var c :| c in images;
      ImagesAre(p, c);
      forall k | 0 <= k < |p.containers| ensures ContainerRunsOn(p.containers[k], inspect, a) {
      }
      forall k | 0 <= k < |p.initContainers| ensures ContainerRunsOn(p.initContainers[k], inspect, a) {
      }
    }
  }

  lemma FailureMeans(p: PodState, inspect: ContainerImage -> ImageResult)
    ensures (exists c | c in ImagesOf(p.AllContainers()) :: inspect(c).ImageError?) <==> SomeContainerFails(p, inspect)
  {
    if c :| c in ImagesOf(p.AllContainers()) && inspect(c).ImageError? {
      ImagesAre(p, c);
      if k :| 0 <= k < |p.containers| && c == ContainerImage("//" + p.containers[k].image, p.containers[k].pullAlways) {
        assert ContainerFails(p.containers[k], inspect);
      } else {
        var k :| 0 <= k < |p.initContainers|
                 && c == ContainerImage("//" + p.initContainers[k].image, p.initContainers[k].pullAlways);
        assert ContainerFails(p.initContainers[k], inspect);
      }
    }
    if k :| 0 <= k < |p.containers| && ContainerFails(p.containers[k], inspect) {
      ContainersAreInspected(p, k);
    }
    if k :| 0 <= k < |p.initContainers| && ContainerFails(p.initContainers[k], inspect) {
      ContainersAreInspected(p, |p.containers| + k);
    }
  }

  /** The pass comes to inspecting the pod's images. */
  ghost predicate ComesToImages(p: PodState, w: World, i: Pass) {
    && p.Gated() && IsPassOf(i, w, p) && i.listing.Listed?
    && InReach(p, i.operatorNamespace) && !FixesArch(p.directives)
    && forall y, b | y in i.listing.matching :: !Decides(y, i.verdict, b)
  }

  lemma ComesToImagesMeans(p: PodState, w: World, i: Pass)
    requires ComesToImages(p, w, i)
    ensures !OutOfScope(p, i.operatorNamespace) && !ArchConfigured(p.directives) && i.Decision().None?
    ensures IsInspection(ImagesOf(p.AllContainers()), w.inspect, i.inspection)
  {
    ConcernedMeans(p, i.operatorNamespace, i.cppc, i.listing.matching);
    assert forall t: Term :: TermFixesArch(t) <==> NamesKey(t, Arch);
    NobodyDecides(i.listing.sorted, i.listing.matching, i.verdict);
  }

  /** One failing container or init container fails the inspection, and nothing else does. */
  lemma InspectionFailsIff(p: PodState, w: World, i: Pass)
    requires ComesToImages(p, w, i)
    ensures i.inspection.InspectionFailed? <==> SomeContainerFails(p, w.inspect)
  {
    ComesToImagesMeans(p, w, i);
    FailureMeans(p, w.inspect);
  }

  /** Some architecture runs the whole pod. */
  ghost predicate Runnable(p: PodState, inspect: ContainerImage -> ImageResult) {
    exists a :: PodRunsOn(p, inspect, a)
  }

  lemma RunnableMeans(p: PodState, inspect: ContainerImage -> ImageResult)
    ensures Runnable(p, inspect) <==> exists a :: Common(ImagesOf(p.AllContainers()), inspect, a)
  {
    forall a ensures Common(ImagesOf(p.AllContainers()), inspect, a) <==> PodRunsOn(p, inspect, a) {
      CommonMeans(p, inspect, a);
    }
  }

  /** After a successful inspection the submitted pod can go exactly where all its containers and init
      containers run and where it could go before (or nowhere but to nodes with the label for pods that
      run nowhere); except where a term of the user's had settled the matter. */
  lemma PodGoesWhereItRuns(p: PodState, w: World, i: Pass, n: Node)
    requires ComesToImages(p, w, i) && i.inspection.Inspected?
    ensures !Process(p, i).Gated()
    ensures Feasible(Process(p, i).directives, n) <==>
            || FeasibleThrough(p.directives, if Runnable(p, w.inspect) then Arch else NoSupportedArch, n)
            || (&& (Feasible(p.directives, n) || AsksThroughNothing(p.directives, n))
                && if Runnable(p, w.inspect) then Arch in n.labels && PodRunsOn(p, w.inspect, n.labels[Arch])
                   else NoSupportedArch in n.labels)
  {
    ComesToImagesMeans(p, w, i);
    PassGate(p, i);
    RunnableMeans(p, w.inspect);
    if Arch in n.labels {
      CommonMeans(p, w.inspect, n.labels[Arch]);
    }
    ImagePathFeasibility(p, i, w.inspect, n);
  }

  /** A pod whose user chose the architecture, and for which no rule decides otherwise, is released as it
      is, and says so. */
  lemma ChoiceStays(p: PodState, w: World, i: Pass)
    requires p.Gated() && IsPassOf(i, w, p) && i.listing.Listed? && FixesArch(p.directives)
    requires Concerned(p, i.operatorNamespace, i.cppc, i.listing.matching)
    requires forall y, b | y in i.listing.matching :: !Decides(y, i.verdict, b)
    ensures !Process(p, i).Gated() && SameRequired(p.directives, Process(p, i).directives)
    ensures Process(p, i).Label(NodeAffinity) == Some("not-set")
  {
    ConcernedMeans(p, i.operatorNamespace, i.cppc, i.listing.matching);
    assert forall t: Term :: TermFixesArch(t) <==> NamesKey(t, Arch);
    NobodyDecides(i.listing.sorted, i.listing.matching, i.verdict);
    PreparedFrame(p, i);
  }

  // ---------- Which configurations match ----------

  /** The matching configurations are those listed that select the pod, each as often as listed. */
  lemma {:induction false} MatchingAre(items: seq<Ppc>, selects: Ppc -> bool, x: Ppc)
    ensures multiset(Filtered(items, selects))[x] == if selects(x) then multiset(items)[x] else 0
  {
    if items != [] {
      var front, last := items[..|items| - 1], items[|items| - 1];
      assert items == front + [last];
      MatchingAre(front, selects, x);
    }
  }

  // ---------- What the labels tell ----------

  /** Admission tells on the pod what it has done and what is to come. */
  lemma AdmissionLabels(p: PodState, i: Admission)
    ensures Admit(p, i).Label(SchedulingGate) ==
            Some(if Concerned(p, i.operatorNamespace, i.cppc, i.matching) then "gated" else "not-set")
    ensures AnyPlugin(i.cppc, i.matching) ==> Admit(p, i).Label(PreferredNodeAffinity) == Some("not-set")
    ensures Admit(p, i).Label(NodeAffinity) ==
            Some(if Concerned(p, i.operatorNamespace, i.cppc, i.matching) && FirstDecision(i.sorted, i.verdict).Some?
                 then "overriden" else "not-set")
  {
    var q := Labelled(p, i);
    ConcernedMeans(q, i.operatorNamespace, i.cppc, i.matching);
    assert Concerned(q, i.operatorNamespace, i.cppc, i.matching) <==> Concerned(p, i.operatorNamespace, i.cppc, i.matching);
    assert q.Label(NodeAffinity) == Some("not-set") && q.Label(SchedulingGate) == Some("not-set");
    assert AnyPlugin(i.cppc, i.matching) ==> q.Label(PreferredNodeAffinity) == Some("not-set");
  }

  lemma InspectedLabels(q: PodState, architectures: seq<string>, key: Key)
    requires !ArchConfigured(q.directives)
    ensures var r := SetArchRequirement(q, Inspected(architectures)).0;
            && r.Label(NodeAffinity) == Some("set") && r.Label(InspectionError) == None
            && r.Label(SingleArch) == (if |architectures| == 1 then Some("") else q.Label(SingleArch))
            && r.Label(MultiArch) == (if |architectures| > 1 then Some("") else q.Label(MultiArch))
            && (key.SupportedArch? ==>
                  (r.Label(key).Some? <==> q.Label(key).Some? || (key.arch in architectures && key.arch in SupportedArchitectures)))
  {
    if architectures != [] {
      var t := q.WithoutLabel(InspectionError).WithLabel(if |architectures| == 1 then SingleArch else MultiArch, "");
      SupportedLabelsElsewhere(t.Labels(), architectures, InspectionError);
      SupportedLabelsElsewhere(t.Labels(), architectures, SingleArch);
      SupportedLabelsElsewhere(t.Labels(), architectures, MultiArch);
      if key.SupportedArch? {
        SupportedLabelsExactly(t.Labels(), architectures, key.arch);
      }
    }
  }

  lemma SubmittedLabel(p: PodState, i: Pass, key: Key)
    requires i.listing.Listed? && !OutOfScope(p, i.operatorNamespace) && !ArchConfigured(p.directives)
    requires i.Decision().None? && i.inspection.Inspected? && key != SchedulingGate
    ensures !ArchConfigured(Prepared(p, i).directives)
    ensures Process(p, i).Label(key) == SetArchRequirement(Prepared(p, i), i.inspection).0.Label(key)
  {
    PreparedFrame(p, i);
  }

  lemma {:induction false} AppliedKeepsLabel(p: PodState, sources: seq<Source>, key: Key)
    requires key != PreferredNodeAffinity
    ensures ApplySources(p, sources).Label(key) == p.Label(key)
    decreases sources
  {
    if sources != [] {
      AppliedKeepsLabel(SetPreferred(p, sources[0].platforms, sources[0].name), sources[1..], key);
    }
  }

  lemma {:induction false} SkippedKeepsLabels(p: PodState, sources: seq<Source>)
    ensures SkipSources(p, sources).labels == p.labels
    decreases sources
  {
    if sources != [] {
      SkippedKeepsLabels(WithSourcesText(p, SkippedText(SourcesText(p), sources[0].platforms, sources[0].name)), sources[1..]);
    }
  }

  lemma PlacedLabel(p: PodState, operatorNamespace: string, sorted: seq<Ppc>, verdict: string -> Verdict, key: Key)
    requires key != NodeAffinity
    ensures PlaceFirst(IgnoreRelabel(p, operatorNamespace), sorted, verdict).Label(key) == p.Label(key)
  {
  }

  lemma PreparedLabel(p: PodState, i: Pass, key: Key)
    requires i.listing.Listed? && key != PreferredNodeAffinity && key != NodeAffinity
    ensures Prepared(p, i).Label(key) == p.Label(key)
  {
    PlacedLabel(p, i.operatorNamespace, i.listing.sorted, i.verdict, key);
    var placed := PlaceFirst(IgnoreRelabel(p, i.operatorNamespace), i.listing.sorted, i.verdict);
    if ArchPreferred(p.directives.preferred) {
      SkippedKeepsLabels(placed, i.Resources());
    } else {
      AppliedKeepsLabel(placed, i.Sources(), key);
    }
  }

  lemma ListedAre(p: PodState, w: World, i: Pass, a: string)
    requires ComesToImages(p, w, i) && i.inspection.Inspected?
    ensures a in i.inspection.architectures <==> PodRunsOn(p, w.inspect, a)
    ensures StringSets.Increasing(i.inspection.architectures)
  {
    ComesToImagesMeans(p, w, i);
    CommonMeans(p, w.inspect, a);
  }

  /** After a successful inspection the pod says that its affinity was set and that no error is left. */
  lemma PodTellsSuccess(p: PodState, w: World, i: Pass)
    requires ComesToImages(p, w, i) && i.inspection.Inspected?
    ensures Process(p, i).Label(NodeAffinity) == Some("set") && Process(p, i).Label(InspectionError) == None
  {
    ComesToImagesMeans(p, w, i);
    SubmittedLabel(p, i, NodeAffinity);
    SubmittedLabel(p, i, InspectionError);
    InspectedLabels(Prepared(p, i), i.inspection.architectures, NodeAffinity);
  }

  lemma SubmittedArchLabels(p: PodState, w: World, i: Pass, a: string)
    requires ComesToImages(p, w, i) && i.inspection.Inspected?
    ensures var q, n := Process(p, i), |i.inspection.architectures|;
            && q.Label(SingleArch) == (if n == 1 then Some("") else p.Label(SingleArch))
            && q.Label(MultiArch) == (if n > 1 then Some("") else p.Label(MultiArch))
            && (q.Label(SupportedArch(a)).Some? <==>
                  p.Label(SupportedArch(a)).Some? || (a in i.inspection.architectures && a in SupportedArchitectures))
  {
    ComesToImagesMeans(p, w, i);
    SubmittedLabel(p, i, SupportedArch(a));
    SubmittedLabel(p, i, SingleArch);
    SubmittedLabel(p, i, MultiArch);
    PreparedLabel(p, i, SupportedArch(a));
    PreparedLabel(p, i, SingleArch);
    PreparedLabel(p, i, MultiArch);
    InspectedLabels(Prepared(p, i), i.inspection.architectures, SupportedArch(a));
  }

  /** And on which supported architectures it runs, and whether that is one or several; besides the labels
      it had. */
  lemma PodTellsWhereItRuns(p: PodState, w: World, i: Pass, a: string)
    requires ComesToImages(p, w, i) && i.inspection.Inspected?
    ensures Process(p, i).Label(SupportedArch(a)).Some? <==>
            p.Label(SupportedArch(a)).Some? || (PodRunsOn(p, w.inspect, a) && a in {"amd64", "arm64", "ppc64le", "s390x"})
    ensures PodRunsOn(p, w.inspect, a) && (forall b | PodRunsOn(p, w.inspect, b) :: b == a) ==>
              Process(p, i).Label(SingleArch) == Some("") && Process(p, i).Label(MultiArch) == p.Label(MultiArch)
    ensures PodRunsOn(p, w.inspect, a) && (exists b | PodRunsOn(p, w.inspect, b) :: b != a) ==>
              Process(p, i).Label(MultiArch) == Some("") && Process(p, i).Label(SingleArch) == p.Label(SingleArch)
  {
    SubmittedArchLabels(p, w, i, a);
    ListedAre(p, w, i, a);
    forall b ensures b in i.inspection.architectures <==> PodRunsOn(p, w.inspect, b) {
      ListedAre(p, w, i, b);
    }
    if a in i.inspection.architectures {
      CountListed(i.inspection.architectures, a);
    }
  }

  /** An increasing list with one element, or with more. */
  lemma CountListed(s: seq<string>, a: string)
    requires StringSets.Increasing(s) && a in s
    ensures |s| == 1 <==> forall b | b in s :: b == a
  {
    if |s| > 1 {
      StringSets.Trichotomy(s[0], s[0]);
      assert StringSets.Less(s[0], s[1]);
      assert s[0] in s && s[1] in s;
    }
  }

  lemma FailedLabels(q: PodState, i: Pass)
    requires q.Gated() && !ArchConfigured(q.directives) && i.inspection.InspectionFailed?
    ensures var r, m := ImagePath(q, i), i.inspection.message;
            && r.Label(InspectionError) == Some("")
            && InspectionError in r.annotations && r.annotations[InspectionError] == (if |m| > 256 then m[..256] else m)
            && (!r.Gated() && i.Fallback() != "" ==> r.Label(FallbackArch) == Some(i.Fallback()) && r.Label(NodeAffinity) == Some("set"))
  {
  }

  /** After a failed one it carries the error, cut to 256 characters; and the fallback architecture, if
      that was the last attempt and one is set. */
  lemma PodTellsFailure(p: PodState, w: World, i: Pass)
    requires ComesToImages(p, w, i) && i.inspection.InspectionFailed?
    ensures var q, m := Process(p, i), i.inspection.message;
            && q.Label(InspectionError) == Some("")
            && InspectionError in q.annotations && q.annotations[InspectionError] == (if |m| > 256 then m[..256] else m)
            && (!q.Gated() && w.cppc.Some? && w.cppc.value.fallback != "" ==>
                  q.Label(FallbackArch) == Some(w.cppc.value.fallback) && q.Label(NodeAffinity) == Some("set"))
  {
    ComesToImagesMeans(p, w, i);
    PreparedFrame(p, i);
    FailedLabels(Prepared(p, i), i);
  }
}
