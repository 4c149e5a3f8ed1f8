/**
 The pod admission webhook (internal/controller/podplacement/scheduling_gate_mutating_webhook.go),
 how it agrees with the controller that runs after it, and the re-queue query of the controller.
 */
module Webhook {
  import opened Decimal
  import opened Keys
  import opened Kubernetes
  import opened PodModel
  import opened PodObject
  import opened Configs
  import opened CelEvaluator
  import opened Placement
  import opened Affinity
  import opened Reconciler
  import opened Runs
  import opened Retries

  /** What one admission reads from outside the pod. */
  datatype Admission = Admission(
    operatorNamespace: string,
    cppc: Option<Cppc>,
    matching: seq<Ppc>,
    sorted: seq<Ppc>,
    verdict: string -> Verdict)

  function Labelled(p: PodState, i: Admission): PodState {
    var q := if ScoringEnabled(i.cppc) || NeedsGate(i.matching) then p.WithLabel(PreferredNodeAffinity, ValueNotSet) else p;
    q.WithLabel(NodeAffinity, ValueNotSet).WithLabel(SchedulingGate, ValueNotSet)
  }

  predicate Ignored(p: PodState, i: Admission) {
    ShouldIgnore(Labelled(p, i), i.operatorNamespace, i.cppc, i.matching)
  }

  /** The pod the webhook returns to the API server. */
  function Admit(p: PodState, i: Admission): PodState {
    var q := IgnoreRelabel(Labelled(p, i), i.operatorNamespace);
    if Ignored(p, i) then q
    else AddGate(PlaceFirst(q, i.sorted, i.verdict), SchedulingGate).WithLabel(SchedulingGate, ValueGated)
  }

  // ---------- The in-place code ----------

  /** The webhook's sources; it fails open when a list fails. */
  datatype WebhookWorld = WebhookWorld(
    operatorNamespace: string,
    cppc: Option<Cppc>,
    cached: ListResult,
    direct: ListResult,
    hasDirectReader: bool,
    cacheSynced: bool,
    selects: Ppc -> bool,
    verdict: string -> Verdict)

  function WebhookItems(w: WebhookWorld): seq<Ppc> {
    var cached := if w.cached.ListOk? then w.cached.items else [];
    if cached == [] && w.hasDirectReader && !w.cacheSynced
    then if w.direct.ListOk? then w.direct.items else []
    else cached
  }

  ghost predicate IsAdmissionOf(i: Admission, w: WebhookWorld, p: PodState) {
    && i.operatorNamespace == w.operatorNamespace && i.cppc == w.cppc && i.verdict == w.verdict
    && i.matching == Filtered(WebhookItems(w), w.selects)
    && (!Ignored(p, i) ==> IsSortOf(i.sorted, i.matching))
  }

  /** Exactly when admission and a controller pass that get the same answers see the same
      configurations: not when the cache fails, and not when a synced cache lags behind. */
  lemma ListingsAgreeIff(w: WebhookWorld, v: World)
    requires v.cached == w.cached && v.direct == w.direct
    ensures ListConfigs(v) == ListOk(WebhookItems(w)) <==>
            && w.cached.ListOk?
            && (w.cached.items == [] ==>
                  && w.direct.ListOk?
                  && (w.direct.items == [] || (w.hasDirectReader && !w.cacheSynced)))
  {
  }

  method ListInWebhook(w: WebhookWorld) returns (items: seq<Ppc>)
    ensures items == WebhookItems(w)
    ensures w.cached.ListOk? && w.cached.items != [] ==> items == w.cached.items
    ensures (w.cached.ListError? || w.cached.items == []) && w.hasDirectReader && !w.cacheSynced && w.direct.ListOk? ==>
              items == w.direct.items
    ensures (w.cached.ListError? || w.cached.items == []) && !(w.hasDirectReader && !w.cacheSynced && w.direct.ListOk?) ==>
              items == []
  {
    items := [];
    if w.cached.ListOk? {
      items := w.cached.items;
    }
    if |items| == 0 && w.hasDirectReader && !w.cacheSynced {
      if w.direct.ListOk? {
        items := w.direct.items;
      } else {
        items := [];
      }
    }
  }

  method LabelPod(pod: Pod, ghost i: Admission, cppc: Option<Cppc>, matching: seq<Ppc>)
    requires i.cppc == cppc && i.matching == matching
    modifies pod`labels
    ensures pod.State() == Labelled(old(pod.State()), i)
  {
    var plugin := HasMatchingPpcWithPlugin(matching);
    if (cppc.Some? && cppc.value.scoring.Some?) || plugin {
      pod.EnsureLabel(PreferredNodeAffinity, ValueNotSet);
    }
    pod.EnsureLabel(NodeAffinity, ValueNotSet);
    pod.EnsureLabel(SchedulingGate, ValueNotSet);
  }

  method Handle(pod: Pod, w: WebhookWorld) returns (ghost i: Admission)
    modifies pod
    ensures IsAdmissionOf(i, w, old(pod.State()))
    ensures pod.State() == Admit(old(pod.State()), i)
  {
    var items := ListInWebhook(w);
    var matching := FilterMatchingPpcs(items, w.selects);
    i := Admission(w.operatorNamespace, w.cppc, matching, matching, w.verdict);
    LabelPod(pod, i, w.cppc, matching);
    var ignore := ShouldIgnorePod(pod, w.operatorNamespace, w.cppc, matching);
    if ignore {
      return;
    }
    var sorted := SortByPriority(matching);
    i := i.(sorted := sorted);
    var _ := ApplyFirstCel(sorted, pod, w.verdict);
    pod.AddGate(SchedulingGate);
    pod.EnsureLabel(SchedulingGate, ValueGated);
  }

  // ---------- The gate label from admission on ----------

  lemma AdmittedLabel(p: PodState, i: Admission)
    requires SchedulingGate !in p.gates
    ensures LabelTellsGate(Admit(p, i))
    ensures Admit(p, i).Gated() <==> !Ignored(p, i)
    ensures Without(Admit(p, i).gates, SchedulingGate) == p.gates
  {
    var q := IgnoreRelabel(Labelled(p, i), i.operatorNamespace);
    if Ignored(p, i) {
      assert q.Label(SchedulingGate) == Some(ValueNotSet);
    } else {
      PlaceFirstFrame(q, i.sorted, i.verdict);
      WithoutConcat(p.gates, [SchedulingGate], SchedulingGate);
      assert Without([SchedulingGate], SchedulingGate) == [];
      assert p.gates + [] == p.gates;
    }
  }

  /** From admission on, through any passes: the label is "gated" exactly while the gate is there,
      and the gates of others keep their order. */
  lemma GateLabelAlwaysRight(p: PodState, i: Admission, passes: seq<Pass>)
    requires SchedulingGate !in p.gates
    ensures LabelTellsGate(Run(Admit(p, i), passes))
    ensures Without(Run(Admit(p, i), passes).gates, SchedulingGate) == p.gates
  {
    AdmittedLabel(p, i);
    RunKeepsGates(Admit(p, i), passes);
  }

  /** A pod's life so far: admitted by the webhook without the gate on it, then reconciled. */
  datatype Life = Life(created: PodState, admission: Admission, passes: seq<Pass>) {
    predicate Valid() {
      SchedulingGate !in created.gates
    }

    function Now(): PodState {
      Run(Admit(created, admission), passes)
    }
  }

  /** `mapPPCToPods`: list by label, return one request per pod. */
  method MapPpcToPods(pods: seq<PodState>, ns: string) returns (requests: seq<string>)
    ensures requests == GatedNames(pods, ns)
  {
    requests := [];
    for k := 0 to |pods|
      invariant requests == GatedNames(pods[..k], ns)
    {
      assert pods[..k + 1][..k] == pods[..k];
      if pods[k].namespace == ns && pods[k].Label(SchedulingGate) == Some(ValueGated) {
        requests := requests + [pods[k].name];
      }
    }
    assert pods[..|pods|] == pods;
  }

  function GatedNames(pods: seq<PodState>, ns: string): seq<string> {
    if pods == [] then []
    else
      var last := pods[|pods| - 1];
      GatedNames(pods[..|pods| - 1], ns)
      + if last.namespace == ns && last.Label(SchedulingGate) == Some(ValueGated) then [last.name] else []
  }

  function StillGated(pods: seq<PodState>, ns: string): seq<string> {
    if pods == [] then []
    else
      var last := pods[|pods| - 1];
      StillGated(pods[..|pods| - 1], ns) + if last.namespace == ns && last.Gated() then [last.name] else []
  }

  /** The label query finds exactly the pods that still hold the gate. */
  lemma {:induction false} QueryFindsTheGated(lives: seq<Life>, pods: seq<PodState>, ns: string)
    requires |pods| == |lives|
    requires forall k | 0 <= k < |lives| :: lives[k].Valid() && pods[k] == lives[k].Now()
    ensures GatedNames(pods, ns) == StillGated(pods, ns)
  {
    if pods != [] {
      var k := |pods| - 1;
      GateLabelAlwaysRight(lives[k].created, lives[k].admission, lives[k].passes);
      assert LabelTellsGate(pods[k]);
      QueryFindsTheGated(lives[..k], pods[..k], ns);
    }
  }

  // ---------- Webhook and controller agree on the placement ----------

  /** The pass lists the configurations the webhook saw, in any order, with the same outcomes. */
  ghost predicate SeesTheSame(i: Pass, w: Admission) {
    i.listing.Listed? ==>
      && IsSortOf(i.listing.sorted, i.listing.matching)
      && multiset(i.listing.matching) == multiset(w.matching)
      && i.verdict == w.verdict
  }

  lemma SameDecision(i: Pass, w: Admission)
    requires i.listing.Listed? && SeesTheSame(i, w)
    requires IsSortOf(w.sorted, w.matching) && DistinctPriorities(w.matching)
    ensures i.Decision() == FirstDecision(w.sorted, w.verdict)
  {
    SortIsUnique(w.matching, i.listing.matching, w.sorted, i.listing.sorted);
  }

  /** What a pass submits leaves the placement as it is, and so is accepted. */
  lemma PassKeepsPlacement(p: PodState, i: Pass, w: Admission, architectures: seq<string>)
    requires SeesTheSame(i, w)
    requires IsSortOf(w.sorted, w.matching) && DistinctPriorities(w.matching)
    requires FirstDecision(w.sorted, w.verdict) == Some(architectures)
    requires SameRequired(Place(p.directives, architectures), p.directives)
    ensures SameRequired(p.directives, Process(p, i).directives)
    ensures LegalUpdate(p.directives, Process(p, i).directives)
  {
    if i.listing.Listed? {
      SameDecision(i, w);
      PreparedFrame(p, i);
      assert Place(p.directives, architectures).required == p.directives.required;
    }
    SameIsLegal(p.directives, Process(p, i).directives);
  }

  lemma {:induction false} RunKeepsPlacement(p: PodState, passes: seq<Pass>, w: Admission, architectures: seq<string>)
    requires forall k | 0 <= k < |passes| :: SeesTheSame(passes[k], w)
    requires IsSortOf(w.sorted, w.matching) && DistinctPriorities(w.matching)
    requires FirstDecision(w.sorted, w.verdict) == Some(architectures)
    requires SameRequired(Place(p.directives, architectures), p.directives)
    ensures SameRequired(p.directives, Run(p, passes).directives)
    decreases passes
  {
    if passes != [] {
      PassKeepsPlacement(p, passes[0], w, architectures);
      var q := Reconcile(p, passes[0]);
      assert SameRequired(Place(q.directives, architectures), q.directives);
      RunKeepsPlacement(q, passes[1..], w, architectures);
    }
  }

  /** With distinct priorities and the same rule outcomes the controller decides as the webhook did,
      no pass of any run changes the nodeSelector or a required term the webhook persisted, and the
      API server has no reason to refuse what a pass submits. */
  lemma ControllerAgreesWithWebhook(p: PodState, w: Admission, passes: seq<Pass>)
    requires !Ignored(p, w) && FirstDecision(w.sorted, w.verdict).Some?
    requires IsSortOf(w.sorted, w.matching) && DistinctPriorities(w.matching)
    requires forall k | 0 <= k < |passes| :: SeesTheSame(passes[k], w)
    ensures forall k | 0 <= k < |passes| && passes[k].listing.Listed? ::
              passes[k].Decision() == FirstDecision(w.sorted, w.verdict)
    ensures SameRequired(Place(p.directives, FirstDecision(w.sorted, w.verdict).value), Run(Admit(p, w), passes).directives)
    ensures forall k | 0 <= k < |passes| ::
              var q := Run(Admit(p, w), passes[..k]); LegalUpdate(q.directives, Process(q, passes[k]).directives)
  {
    var architectures := FirstDecision(w.sorted, w.verdict).value;
    forall k | 0 <= k < |passes| && passes[k].listing.Listed?
      ensures passes[k].Decision() == FirstDecision(w.sorted, w.verdict)
    {
      SameDecision(passes[k], w);
    }
    AdmitPlaces(p, w);
    PlaceIsIdempotent(p.directives, architectures);
    RunKeepsPlacement(Admit(p, w), passes, w, architectures);
    forall k | 0 <= k < |passes|
      ensures var q := Run(Admit(p, w), passes[..k]); LegalUpdate(q.directives, Process(q, passes[k]).directives)
    {
      RunKeepsPlacement(Admit(p, w), passes[..k], w, architectures);
      PassKeepsPlacement(Run(Admit(p, w), passes[..k]), passes[k], w, architectures);
    }
  }

  lemma AdmitPlaces(p: PodState, w: Admission)
    requires !Ignored(p, w) && FirstDecision(w.sorted, w.verdict).Some?
    ensures Admit(p, w).directives == Place(p.directives, FirstDecision(w.sorted, w.verdict).value)
  {
  }

  // ---------- When they do not see the same ----------

  lemma NothingListedNothingPlaced(p: PodState, w: WebhookWorld, i: Admission)
    requires IsAdmissionOf(i, w, p) && WebhookItems(w) == [] && !Ignored(p, i)
    ensures Admit(p, i).directives == p.directives && Admit(p, i).Gated()
    ensures var q := Admit(p, i); q.namespace == p.namespace && q.nodeName == p.nodeName && q.owners == p.owners
  {
    assert i.matching == [];
    assert |i.sorted| == |multiset(i.sorted)| == 0;
    assert FirstDecision(i.sorted, i.verdict) == None;
  }

  /** The pass, of this world, decides something the admitted pod has no room for. */
  ghost predicate ComesTooLate(p: PodState, i: Admission, v: World, pass: Pass) {
    && IsPassOf(pass, v, Admit(p, i)) && pass.listing.Listed? && !Ignores(Admit(p, i), pass)
    && pass.Decision().Some? && !CanPlace(p.directives, pass.Decision().value)
  }

  /** A synced cache that lags behind: admission finds no configuration and does not place the pod, the
      passes find one in the API server's own list, and where the pod has no room for it any more it is
      never released. */
  lemma LaggingCacheStrands(p: PodState, w: WebhookWorld, i: Admission, v: World, passes: seq<Pass>)
    requires w.cached == ListOk([]) && w.cacheSynced && v.cached == w.cached && v.direct == w.direct
    requires IsAdmissionOf(i, w, p) && !Ignored(p, i)
    requires forall k | 0 <= k < |passes| :: ComesTooLate(p, i, v, passes[k])
    ensures Admit(p, i).directives == p.directives
    ensures Run(Admit(p, i), passes) == Admit(p, i) && Admit(p, i).Gated()
  {
    NothingListedNothingPlaced(p, w, i);
    LateOverrideIsStuck(Admit(p, i), passes);
  }

  const Arm: Ppc := Ppc("arm", 0, None, Some(CelPlugin([], ["arm64"])))

  /** One term asks for amd64 and another for something else. */
  function TwoTermPod(): PodState {
    PodState("p", "d", "", [], [], [], None, map[], [],
             Directives(map[], Some([Term([Requirement(Arch, In, ["amd64"])], []),
                                     Term([Requirement(Other("disk"), Exists, [])], [])]), []))
  }

  lemma TwoTermPodHasNoRoom(d: Directives)
    requires d == TwoTermPod().directives
    ensures !ArchConfigured(d) && !CanPlace(d, ["arm64"])
  {
    var t := d.required.value[0];
    assert t.expressions[0].key == Arch;
    assert NamesKey(t, Arch) && !NamesKey(d.required.value[1], Arch);
    assert "amd64"[1] != "arm64"[1];
  }

  lemma TwoTermPodIsInScope(p: PodState)
    requires p.namespace == "d" && p.nodeName == "" && p.owners == [] && p.directives.nodeSelector == map[]
    ensures !OutOfScope(p, "o")
  {
    assert "d"[0] != "o"[0];
    assert "kube-"[0] != "d"[0];
  }

  function LaggingWebhook(verdict: string -> Verdict): WebhookWorld {
    WebhookWorld("o", None, ListOk([]), ListOk([Arm]), true, true, ppc => true, verdict)
  }

  function LaterWorld(verdict: string -> Verdict): World {
    World("o", None, ListOk([]), ListOk([Arm]), ppc => true, verdict, c => ImageError(""), false)
  }

  function LaterPass(verdict: string -> Verdict): Pass {
    Pass("o", None, Listed([Arm], [Arm], [Arm]), verdict, Inspected([]), false)
  }

  lemma ArmDecides(verdict: string -> Verdict)
    ensures LaterPass(verdict).Decision() == Some(["arm64"])
    ensures Filtered([Arm], LaterWorld(verdict).selects) == [Arm]
  {
    assert FirstTrue([], verdict) == None;
    assert [Arm][..0] == [];
  }

  lemma LaterPassIsOne(verdict: string -> Verdict, q: PodState)
    requires !OutOfScope(q, "o") && !ArchConfigured(q.directives)
    ensures IsPassOf(LaterPass(verdict), LaterWorld(verdict), q) && !Ignores(q, LaterPass(verdict))
  {
    ArmDecides(verdict);
  }

  lemma LaggingAdmission(verdict: string -> Verdict, p: PodState) returns (i: Admission)
    requires p == TwoTermPod()
    ensures IsAdmissionOf(i, LaggingWebhook(verdict), p) && !Ignored(p, i)
  {
    i := Admission("o", None, [], [], verdict);
    TwoTermPodHasNoRoom(p.directives);
    TwoTermPodIsInScope(Labelled(p, i));
  }

  /** Such a cache, such a configuration and such a pod, whatever the rules say. */
  lemma LaggingCacheExample(verdict: string -> Verdict, p: PodState, passes: seq<Pass>) returns (i: Admission)
    requires p == TwoTermPod() && forall k | 0 <= k < |passes| :: passes[k] == LaterPass(verdict)
    ensures IsAdmissionOf(i, LaggingWebhook(verdict), p) && ComesTooLate(p, i, LaterWorld(verdict), LaterPass(verdict))
    ensures Admit(p, i).Gated() && Run(Admit(p, i), passes) == Admit(p, i)
  {
    i := LaggingAdmission(verdict, p);
    NothingListedNothingPlaced(p, LaggingWebhook(verdict), i);
    var q := Admit(p, i);
    TwoTermPodIsInScope(q);
    TwoTermPodHasNoRoom(q.directives);
    LaterPassIsOne(verdict, q);
    ArmDecides(verdict);
    assert ComesTooLate(p, i, LaterWorld(verdict), LaterPass(verdict));
    LaggingCacheStrands(p, LaggingWebhook(verdict), i, LaterWorld(verdict), passes);
  }
}
