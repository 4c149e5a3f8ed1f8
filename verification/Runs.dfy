/**
 What holds over whole runs of controller passes: retries end, the gate and its label agree,
 required affinity only ever gains one requirement, and preferences are added at most once.
 */
module Runs {
  import opened Decimal
  import opened Keys
  import opened Kubernetes
  import opened PodModel
  import opened Configs
  import opened CelEvaluator
  import opened Placement
  import opened Preferences
  import opened Affinity
  import opened Reconciler

  // ---------- What each part of a pass leaves alone ----------

  /** Same pod, up to labels, annotations and scheduling directives. */
  predicate SamePod(p: PodState, q: PodState) {
    && q.name == p.name && q.namespace == p.namespace && q.nodeName == p.nodeName
    && q.owners == p.owners && q.containers == p.containers && q.initContainers == p.initContainers && q.gates == p.gates
  }

  predicate SameRequired(d: Directives, e: Directives) {
    e.nodeSelector == d.nodeSelector && e.required == d.required
  }

  /** The labels this module follows: the gate's and the retry counter. */
  predicate SameWatched(p: PodState, q: PodState) {
    && q.Label(SchedulingGate) == p.Label(SchedulingGate)
    && q.Label(InspectionErrorCount) == p.Label(InspectionErrorCount)
  }

  predicate OnlyPrefers(p: PodState, q: PodState) {
    SamePod(p, q) && SameRequired(p.directives, q.directives) && SameWatched(p, q)
  }

  lemma {:induction false} ApplySourcesFrame(p: PodState, sources: seq<Source>)
    ensures OnlyPrefers(p, ApplySources(p, sources))
    decreases sources
  {
    if sources != [] {
      ApplySourcesFrame(SetPreferred(p, sources[0].platforms, sources[0].name), sources[1..]);
    }
  }

  lemma {:induction false} SkipSourcesFrame(p: PodState, sources: seq<Source>)
    ensures OnlyPrefers(p, SkipSources(p, sources))
    ensures SkipSources(p, sources).directives == p.directives
    decreases sources
  {
    if sources != [] {
      var q := WithSourcesText(p, SkippedText(SourcesText(p), sources[0].platforms, sources[0].name));
      SkipSourcesFrame(q, sources[1..]);
    }
  }

  lemma PlaceFirstFrame(p: PodState, sorted: seq<Ppc>, verdict: string -> Verdict)
    ensures SamePod(p, PlaceFirst(p, sorted, verdict)) && SameWatched(p, PlaceFirst(p, sorted, verdict))
    ensures PlaceFirst(p, sorted, verdict).directives ==
            var decision := FirstDecision(sorted, verdict);
            if decision.None? then p.directives else Place(p.directives, decision.value)
    ensures PlaceFirst(p, sorted, verdict).annotations == p.annotations
  {
  }

  /** The pod as it reaches the image path (or the CEL ungating). */
  function Prepared(p: PodState, i: Pass): PodState
    requires i.listing.Listed?
  {
    Prefer(PlaceFirst(IgnoreRelabel(p, i.operatorNamespace), i.listing.sorted, i.verdict),
           ArchPreferred(p.directives.preferred), i)
  }

  lemma PreparedFrame(p: PodState, i: Pass)
    requires i.listing.Listed?
    ensures SamePod(p, Prepared(p, i)) && SameWatched(p, Prepared(p, i))
    ensures i.Decision().None? ==> SameRequired(p.directives, Prepared(p, i).directives)
    ensures i.Decision().Some? ==> SameRequired(Place(p.directives, i.Decision().value), Prepared(p, i).directives)
  {
    var q := IgnoreRelabel(p, i.operatorNamespace);
    assert SamePod(p, q) && SameWatched(p, q) && q.directives == p.directives;
    PlaceFirstFrame(q, i.listing.sorted, i.verdict);
    var placed := PlaceFirst(q, i.listing.sorted, i.verdict);
    if ArchPreferred(p.directives.preferred) {
      SkipSourcesFrame(placed, i.Resources());
    } else {
      ApplySourcesFrame(placed, i.Sources());
    }
  }

  // ---------- The retry counter ----------

  /** The number in a counter, zero when there is none. */
  function Counter(text: Option<string>): int {
    var count := if text.Some? then ParseInt(text.value, 32) else None;
    if count.None? then 0 else count.value
  }

  /** How many failing passes a counter still allows; the counter is the text of a label. */
  function Budget(text: Option<string>): (r: nat)
    ensures r >= 1
  {
    if Counter(text) >= MaxRetryCount - 1 then 1 else MaxRetryCount - Counter(text)
  }

  /** At most five for a counter that is absent, not a number or not negative, and for no other. */
  lemma BudgetWithinFive(text: Option<string>)
    ensures Budget(text) <= 5 <==>
            text.None? || ParseInt(text.value, 32).None? || ParseInt(text.value, 32).value >= 0
  {
  }

  lemma {:induction false} PowerOfTwoExceeds(n: nat)
    ensures PowerOfTwo(n) > n
  {
    if n > 0 {
      PowerOfTwoExceeds(n - 1);
    }
  }

  /** A counter that somebody set below zero allows a sixth attempt. */
  lemma NegativeCounter(below: int) returns (text: string)
    requires below == -1
    ensures text == "-1" && Budget(Some(text)) == 6
  {
    PowerOfTwoExceeds(31);
    text := Print(below);
    ParsePrint(below, 32);
  }

  predicate Exhausted(text: string) {
    ParseInt(text, 32).None? || ParseInt(text, 32).value >= MaxRetryCount
  }

  lemma IncrementedPrints(text: Option<string>)
    ensures Incremented(text) == Print(Counter(text) + 1)
  {
    assert Print(1) == "1";
  }

  /** Incrementing reads back as one more, and as nothing where that leaves 32 bits. */
  lemma IncrementedReads(text: Option<string>)
    ensures ParseInt(Incremented(text), 32) ==
            if Counter(text) + 1 < PowerOfTwo(31) then Some(Counter(text) + 1) else None
    ensures PowerOfTwo(31) > 31
  {
    PowerOfTwoExceeds(31);
    IncrementedPrints(text);
    ParsePrint(Counter(text) + 1, 32);
    assert Counter(text) >= -PowerOfTwo(31);
  }

  /** One increment spends one unit of the budget, also where the number leaves 32 bits. */
  lemma IncrementSpends(text: Option<string>)
    ensures Exhausted(Incremented(text)) <==> Budget(text) == 1
    ensures !Exhausted(Incremented(text)) ==> Budget(Some(Incremented(text))) == Budget(text) - 1
  {
    IncrementedReads(text);
  }

  /** After a failed inspection the pod carries the incremented counter, and the limit is reached
      exactly when the budget was down to one. */
  lemma FailureCounts(p: PodState, inspection: Inspection, message: string)
    ensures var r := HandleError(SetArchRequirement(p, inspection).0, message);
            && r.Label(InspectionErrorCount) == Some(Incremented(p.Label(InspectionErrorCount)))
            && (MaxRetries(r) <==> Budget(p.Label(InspectionErrorCount)) == 1)
  {
    var q := SetArchRequirement(p, inspection).0;
    AffinityKeepsLabels(p, inspection, "", InspectionErrorCount);
    var r := HandleError(q, message);
    assert r.Label(InspectionErrorCount) == Some(Incremented(q.Label(InspectionErrorCount)));
    assert MaxRetries(r) <==> Exhausted(Incremented(p.Label(InspectionErrorCount)));
    IncrementSpends(p.Label(InspectionErrorCount));
  }

  /** The image path ungates exactly when nothing failed or the budget is spent; otherwise the
      counter has advanced by one. */
  lemma ImagePathGate(p: PodState, i: Pass)
    requires p.Gated()
    ensures ImagePath(p, i).Gated() <==>
            !ArchConfigured(p.directives) && i.inspection.InspectionFailed? && Budget(p.Label(InspectionErrorCount)) > 1
    ensures ImagePath(p, i).Gated() ==>
              && SameRequired(p.directives, ImagePath(p, i).directives)
              && ImagePath(p, i).directives == p.directives
              && SamePod(p, ImagePath(p, i))
              && ImagePath(p, i).Label(InspectionErrorCount) == Some(Incremented(p.Label(InspectionErrorCount)))
              && Budget(ImagePath(p, i).Label(InspectionErrorCount)) == Budget(p.Label(InspectionErrorCount)) - 1
  {
    if SetArchRequirement(p, i.inspection).1 {
      FailureCounts(p, i.inspection, i.inspection.message);
      IncrementSpends(p.Label(InspectionErrorCount));
    }
  }

  /** Exactly when a pass leaves the pod gated. */
  predicate StaysGated(p: PodState, i: Pass) {
    || i.listing.ListFailed?
    || (&& !OutOfScope(p, i.operatorNamespace)
        && i.Decision().None?
        && !ArchConfigured(p.directives)
        && i.inspection.InspectionFailed?
        && Budget(p.Label(InspectionErrorCount)) > 1)
  }

  lemma PassGate(p: PodState, i: Pass)
    requires p.Gated()
    ensures Process(p, i).Gated() <==> StaysGated(p, i)
    ensures Process(p, i).Gated() ==> SamePod(p, Process(p, i)) && SameRequired(p.directives, Process(p, i).directives)
    ensures Process(p, i).Gated() ==>
              Process(p, i).Label(InspectionErrorCount) == Some(Incremented(p.Label(InspectionErrorCount)))
    ensures Process(p, i).Gated() && i.listing.Listed? ==>
              Budget(Process(p, i).Label(InspectionErrorCount)) == Budget(p.Label(InspectionErrorCount)) - 1
  {
    if i.listing.Listed? {
      PreparedFrame(p, i);
      if i.Decision().None? {
        ImagePathGate(Prepared(p, i), i);
        assert ArchConfigured(p.directives) <==> ArchConfigured(Prepared(p, i).directives);
      }
    }
  }

  // ---------- What the API server answers ----------

  /** The requirement the image path adds to the pod, if it adds one. */
  function Patch(p: PodState, i: Pass): Option<Requirement> {
    if ArchConfigured(p.directives) then None
    else if i.inspection.Inspected? then Some(ArchitecturePredicate(i.inspection.architectures))
    else if Budget(p.Label(InspectionErrorCount)) == 1 && i.Fallback() != "" then Some(Requirement(Arch, In, [i.Fallback()]))
    else None
  }

  function Patched(d: Directives, patch: Option<Requirement>): Directives {
    if patch.None? then d else d.(required := Require(d.required, patch.value))
  }

  lemma ImagePathRequired(p: PodState, i: Pass)
    ensures SameRequired(Patched(p.directives, Patch(p, i)), ImagePath(p, i).directives)
  {
    if SetArchRequirement(p, i.inspection).1 {
      FailureCounts(p, i.inspection, i.inspection.message);
      IncrementSpends(p.Label(InspectionErrorCount));
    }
  }

  /** What a pass that comes to the image path submits as required affinity. */
  lemma SubmittedRequired(p: PodState, i: Pass)
    requires i.listing.Listed? && !ShouldIgnore(p, i.operatorNamespace, i.cppc, i.listing.matching) && i.Decision().None?
    ensures SameRequired(Patched(p.directives, Patch(p, i)), Process(p, i).directives)
  {
    PreparedFrame(p, i);
    var q := Prepared(p, i);
    ImagePathRequired(q, i);
    assert Patch(q, i) == Patch(p, i);
  }

  lemma SameIsLegal(d: Directives, e: Directives)
    requires SameRequired(d, e)
    ensures LegalUpdate(d, e)
  {
  }

  /** Exactly which updates the API server takes: those of passes that could not list or that leave
      the pod alone, an override that the pod has room for, and a patch of a pod without empty terms. */
  predicate CanSubmit(p: PodState, i: Pass) {
    || i.listing.ListFailed?
    || ShouldIgnore(p, i.operatorNamespace, i.cppc, i.listing.matching)
    || if i.Decision().Some? then CanPlace(p.directives, i.Decision().value)
       else Patch(p, i).None? || NoEmptyTerm(p.directives)
  }

  lemma SubmittedLegalIff(p: PodState, i: Pass)
    ensures LegalUpdate(p.directives, Process(p, i).directives) <==> CanSubmit(p, i)
  {
    if i.listing.ListFailed? || ShouldIgnore(p, i.operatorNamespace, i.cppc, i.listing.matching) {
      SameIsLegal(p.directives, Process(p, i).directives);
    } else if i.Decision().Some? {
      PreparedFrame(p, i);
      PlaceLegalIff(p.directives, i.Decision().value);
    } else {
      SubmittedRequired(p, i);
      if Patch(p, i).Some? {
        RequireLegalIff(p.directives, Patch(p, i).value);
      }
    }
  }

  // ---------- Runs ----------

  lemma {:induction false} UngatedStays(p: PodState, passes: seq<Pass>)
    requires !p.Gated()
    ensures Run(p, passes) == p
    decreases passes
  {
    if passes != [] {
      UngatedStays(p, passes[1..]);
    }
  }

  // ---------- The gate and its label ----------

  /** The label says "gated" exactly when the gate is there. */
  predicate LabelTellsGate(p: PodState) {
    p.Label(SchedulingGate) == Some(ValueGated) <==> p.Gated()
  }

  lemma ErrorKeepsGateLabel(p: PodState, message: string)
    ensures HandleError(p, message).Label(SchedulingGate) == p.Label(SchedulingGate)
    ensures HandleError(p, message).gates == p.gates
  {
  }

  lemma UngateLabel(p: PodState)
    ensures LabelTellsGate(Ungate(p))
    ensures Without(Ungate(p).gates, SchedulingGate) == Without(p.gates, SchedulingGate)
  {
    assert Ungate(p).Label(SchedulingGate) == Some(ValueRemoved);
  }

  lemma ImagePathKeepsGates(p: PodState, i: Pass)
    requires p.Gated() && LabelTellsGate(p)
    ensures LabelTellsGate(ImagePath(p, i))
    ensures Without(ImagePath(p, i).gates, SchedulingGate) == Without(p.gates, SchedulingGate)
  {
    var (q, failed) := SetArchRequirement(p, i.inspection);
    AffinityKeepsLabels(p, i.inspection, "", SchedulingGate);
    if !failed {
      UngateLabel(q);
    } else {
      var r := HandleError(q, i.inspection.message);
      ErrorKeepsGateLabel(q, i.inspection.message);
      UngateLabel(if i.Fallback() != "" then SetFallback(r, i.Fallback()) else r);
    }
  }

  lemma ProcessKeepsGates(p: PodState, i: Pass)
    requires p.Gated() && LabelTellsGate(p)
    ensures LabelTellsGate(Process(p, i))
    ensures Without(Process(p, i).gates, SchedulingGate) == Without(p.gates, SchedulingGate)
  {
    if i.listing.ListFailed? {
      ErrorKeepsGateLabel(p, i.listing.message);
    } else if ShouldIgnore(p, i.operatorNamespace, i.cppc, i.listing.matching) {
      UngateLabel(IgnoreRelabel(p, i.operatorNamespace));
    } else {
      PreparedFrame(p, i);
      var r := Prepared(p, i);
      if i.Decision().Some? {
        UngateLabel(r);
      } else {
        ImagePathKeepsGates(r, i);
      }
    }
  }

  /** At every later point the label and the gate agree and the other gates keep their order. */
  lemma {:induction false} RunKeepsGates(p: PodState, passes: seq<Pass>)
    requires LabelTellsGate(p)
    ensures LabelTellsGate(Run(p, passes))
    ensures Without(Run(p, passes).gates, SchedulingGate) == Without(p.gates, SchedulingGate)
    decreases passes
  {
    if passes != [] {
      if p.Gated() {
        ProcessKeepsGates(p, passes[0]);
      }
      RunKeepsGates(Reconcile(p, passes[0]), passes[1..]);
    }
  }

  // ---------- What the operator asks for over a whole run ----------

  /** A run in which the API server takes whatever it is given. */
  function Submitted(p: PodState, passes: seq<Pass>): PodState
    decreases passes
  {
    if passes == [] then p else Submitted(if p.Gated() then Process(p, passes[0]) else p, passes[1..])
  }

  /** The passes of a run whose updates are accepted. */
  function AcceptedPasses(p: PodState, passes: seq<Pass>): seq<Pass>
    decreases passes
  {
    if passes == [] then []
    else (if p.Gated() && Accepted(p, passes[0]) then [passes[0]] else []) + AcceptedPasses(Reconcile(p, passes[0]), passes[1..])
  }

  /** A run under the real API server is such a run of the passes it accepts. */
  lemma {:induction false} RunIsSubmitted(p: PodState, passes: seq<Pass>)
    ensures Run(p, passes) == Submitted(p, AcceptedPasses(p, passes))
    ensures forall i | i in AcceptedPasses(p, passes) :: i in passes
    decreases passes
  {
    if passes != [] {
      RunIsSubmitted(Reconcile(p, passes[0]), passes[1..]);
      var rest := AcceptedPasses(Reconcile(p, passes[0]), passes[1..]);
      assert ([passes[0]] + rest)[1..] == rest;
      assert [] + rest == rest;
    }
  }

  lemma {:induction false} UngatedSubmitted(p: PodState, passes: seq<Pass>)
    requires !p.Gated()
    ensures Submitted(p, passes) == p
    decreases passes
  {
    if passes != [] {
      UngatedSubmitted(p, passes[1..]);
    }
  }

  /** All such a run without CEL placement may do to the required side: nothing, or one patch. */
  predicate PatchedOnce(d: Directives, e: Directives, r: Requirement) {
    e.nodeSelector == d.nodeSelector && e.required == Require(d.required, r)
  }

  ghost predicate AtMostOnePatch(d: Directives, e: Directives) {
    SameRequired(d, e) || exists r :: PatchedOnce(d, e, r)
  }

  lemma ProcessPatches(p: PodState, i: Pass)
    requires p.Gated() && i.Decision().None?
    ensures AtMostOnePatch(p.directives, Process(p, i).directives)
    ensures Process(p, i).Gated() ==> SameRequired(p.directives, Process(p, i).directives)
  {
    PassGate(p, i);
    if i.listing.Listed? && !ShouldIgnore(p, i.operatorNamespace, i.cppc, i.listing.matching) {
      SubmittedRequired(p, i);
      if Patch(p, i).Some? {
        assert PatchedOnce(p.directives, Process(p, i).directives, Patch(p, i).value);
      }
    }
  }

  lemma {:induction false} SubmittedPatches(p: PodState, passes: seq<Pass>)
    requires forall k | 0 <= k < |passes| :: passes[k].Decision().None?
    ensures AtMostOnePatch(p.directives, Submitted(p, passes).directives)
    ensures Submitted(p, passes).Gated() ==> SameRequired(p.directives, Submitted(p, passes).directives)
    decreases passes
  {
    if !p.Gated() {
      UngatedSubmitted(p, passes);
    } else if passes != [] {
      ProcessPatches(p, passes[0]);
      var q := Process(p, passes[0]);
      if q.Gated() {
        SubmittedPatches(q, passes[1..]);
        if r :| PatchedOnce(q.directives, Submitted(q, passes[1..]).directives, r) {
          assert PatchedOnce(p.directives, Submitted(p, passes).directives, r);
        }
      } else {
        UngatedSubmitted(q, passes[1..]);
      }
    }
  }

  /** So it is under the real API server. */
  lemma RunPatches(p: PodState, passes: seq<Pass>)
    requires forall k | 0 <= k < |passes| :: passes[k].Decision().None?
    ensures AtMostOnePatch(p.directives, Run(p, passes).directives)
  {
    RunIsSubmitted(p, passes);
    var accepted := AcceptedPasses(p, passes);
    forall k | 0 <= k < |accepted| ensures accepted[k].Decision().None? {
      assert accepted[k] in passes;
    }
    SubmittedPatches(p, accepted);
  }

  /** The required side has only gained, and at most one requirement per term. */
  predicate OnlyGains(d: Directives, e: Directives) {
    && e.nodeSelector == d.nodeSelector
    && if d.required.None? || d.required.value == []
       then e.required == d.required || (e.required.Some? && |e.required.value| == 1 && |e.required.value[0].expressions| == 1
                                         && e.required.value[0].fields == [])
       else && e.required.Some? && |e.required.value| == |d.required.value|
            && forall i | 0 <= i < |d.required.value| ::
                 && e.required.value[i].fields == d.required.value[i].fields
                 && d.required.value[i].expressions <= e.required.value[i].expressions
                 && |e.required.value[i].expressions| <= |d.required.value[i].expressions| + 1
  }

  lemma PatchOnlyGains(d: Directives, e: Directives)
    requires AtMostOnePatch(d, e)
    ensures OnlyGains(d, e)
    ensures NoEmptyTerm(d) ==> LegalUpdate(d, e)
  {
    if SameRequired(d, e) {
      SameIsLegal(d, e);
    } else {
      var r :| PatchedOnce(d, e, r);
      RequireLegalIff(d, r);
      var terms := TermsOrOne(d.required);
      assert forall i | 0 <= i < |terms| :: e.required.value[i] == AddRequirement(terms[i], r);
    }
  }

  /** Image-path and fallback passes, every one of them persisted: over the whole run the node selector
      stays, no term comes or goes, and every list of expressions is kept as a prefix and gains at most
      one requirement. If no term is empty, the whole is a legal update and lets no node in. */
  lemma RunOnlyGains(p: PodState, passes: seq<Pass>)
    requires forall k | 0 <= k < |passes| :: passes[k].Decision().None?
    ensures OnlyGains(p.directives, Submitted(p, passes).directives)
    ensures NoEmptyTerm(p.directives) ==> LegalUpdate(p.directives, Submitted(p, passes).directives)
    ensures NoEmptyTerm(p.directives) && p.directives.required != Some([]) ==>
              forall n :: Feasible(Submitted(p, passes).directives, n) ==> Feasible(p.directives, n)
  {
    SubmittedPatches(p, passes);
    var d, e := p.directives, Submitted(p, passes).directives;
    PatchOnlyGains(d, e);
    if NoEmptyTerm(d) && d.required != Some([]) {
      forall n | Feasible(e, n) ensures Feasible(d, n) {
        LegalUpdateOnlyNarrows(d, e, n);
      }
    }
  }

  lemma {:induction false} SubmittedKeepsRequired(p: PodState, passes: seq<Pass>)
    requires Submitted(p, passes).Gated()
    ensures p.Gated() && SameRequired(p.directives, Submitted(p, passes).directives)
    decreases passes
  {
    if !p.Gated() {
      UngatedSubmitted(p, passes);
    } else if passes != [] {
      PassGate(p, passes[0]);
      SubmittedKeepsRequired(Process(p, passes[0]), passes[1..]);
    }
  }

  /** Every update such a pass submits, at any point of a run, is legal if and only if it adds nothing or
      the pod has no empty term. */
  lemma EverySubmissionIsLegalIff(p: PodState, passes: seq<Pass>, k: nat)
    requires k < |passes| && Submitted(p, passes[..k]).Gated() && passes[k].Decision().None?
    ensures var q := Submitted(p, passes[..k]);
            LegalUpdate(q.directives, Process(q, passes[k]).directives) <==>
              || passes[k].listing.ListFailed?
              || ShouldIgnore(q, passes[k].operatorNamespace, passes[k].cppc, passes[k].listing.matching)
              || Patch(q, passes[k]).None?
              || NoEmptyTerm(p.directives)
  {
    SubmittedKeepsRequired(p, passes[..k]);
    SubmittedLegalIff(Submitted(p, passes[..k]), passes[k]);
  }

  // ---------- What the image path means for scheduling ----------

  /** The pass reaches the image path with images that were all inspected. */
  ghost predicate InspectsImages(p: PodState, i: Pass, inspect: ContainerImage -> ImageResult) {
    && p.Gated()
    && i.listing.Listed?
    && !OutOfScope(p, i.operatorNamespace) && !ArchConfigured(p.directives)
    && i.Decision().None?
    && i.inspection.Inspected?
    && IsInspection(ImagesOf(p.AllContainers()), inspect, i.inspection)
  }

  /** A node meets what the images ask for: its architecture is supported by every one of them;
      when there is no such architecture, it carries the label no node carries by default. */
  ghost predicate RunsAllImages(n: Node, images: set<ContainerImage>, inspect: ContainerImage -> ImageResult) {
    if exists a :: Common(images, inspect, a)
    then Arch in n.labels && Common(images, inspect, n.labels[Arch])
    else NoSupportedArch in n.labels
  }

  lemma PredicateMeaning(n: Node, images: set<ContainerImage>, inspect: ContainerImage -> ImageResult, architectures: seq<string>)
    requires IsInspection(images, inspect, Inspected(architectures))
    ensures Holds(ArchitecturePredicate(architectures), n.labels) <==> RunsAllImages(n, images, inspect)
    ensures ArchitecturePredicate(architectures).key ==
            if exists a :: Common(images, inspect, a) then Arch else NoSupportedArch
  {
    if architectures == [] {
      assert forall a :: a !in architectures;
    } else {
      assert architectures[0] in architectures;
    }
  }

  /** For every pod and every node: what the image path submits makes a node feasible exactly when it
      was through a term that already named the key of the requirement, or when it runs all images and
      was feasible or asked for through nothing. */
  lemma ImagePathFeasibility(p: PodState, i: Pass, inspect: ContainerImage -> ImageResult, n: Node)
    requires InspectsImages(p, i, inspect)
    ensures var images := ImagesOf(p.AllContainers());
            var key := if exists a :: Common(images, inspect, a) then Arch else NoSupportedArch;
            Feasible(Process(p, i).directives, n) <==>
              || FeasibleThrough(p.directives, key, n)
              || (RunsAllImages(n, images, inspect) && (Feasible(p.directives, n) || AsksThroughNothing(p.directives, n)))
  {
    SubmittedRequired(p, i);
    RequireFeasibility(p.directives, Patch(p, i).value, n);
    PredicateMeaning(n, ImagesOf(p.AllContainers()), inspect, i.inspection.architectures);
  }

  /** The last failing pass submits the pod without the gate, and a node is then feasible exactly when
      it was before, if there is no fallback architecture; if there is one, when it has this
      architecture and was feasible or asked for through nothing, or was feasible through a term of
      the user's that names the architecture. */
  lemma FallbackFeasibility(p: PodState, i: Pass, n: Node)
    requires p.Gated() && i.listing.Listed? && i.Decision().None?
    requires !OutOfScope(p, i.operatorNamespace) && !ArchConfigured(p.directives)
    requires i.inspection.InspectionFailed? && Budget(p.Label(InspectionErrorCount)) == 1
    ensures !Process(p, i).Gated()
    ensures Feasible(Process(p, i).directives, n) <==>
            if i.Fallback() == "" then Feasible(p.directives, n)
            else || FeasibleThrough(p.directives, Arch, n)
                 || (&& Arch in n.labels && n.labels[Arch] == i.Fallback()
                     && (Feasible(p.directives, n) || AsksThroughNothing(p.directives, n)))
  {
    PassGate(p, i);
    SubmittedRequired(p, i);
    RequireFeasibility(p.directives, Requirement(Arch, In, [i.Fallback()]), n);
  }
}
