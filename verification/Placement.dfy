/**
 CEL architecture placement: internal/controller/podplacement/architecture_application.go,
 architecture_removal.go, cel_integration.go and the loop of scheduling_gate_mutating_webhook.go.
 */
module Placement {
  import opened Decimal
  import opened Keys
  import opened Kubernetes
  import opened PodModel
  import opened PodObject
  import opened Configs
  import opened CelEvaluator

  function ArchIn(architectures: seq<string>): Requirement {
    Requirement(Arch, In, architectures)
  }

  function NonArch(expressions: seq<Requirement>): (r: seq<Requirement>)
    ensures |r| <= |expressions|
    ensures forall i | 0 <= i < |r| :: r[i].key != Arch
    ensures (forall i | 0 <= i < |expressions| :: expressions[i].key != Arch) ==> r == expressions
    ensures (exists i | 0 <= i < |expressions| :: expressions[i].key == Arch) ==> |r| < |expressions|
  {
    if expressions == [] then []
    else if expressions[0].key == Arch then NonArch(expressions[1..])
    else [expressions[0]] + NonArch(expressions[1..])
  }

  function Placed(t: Term, architectures: seq<string>): Term {
    t.(expressions := NonArch(t.expressions) + [ArchIn(architectures)])
  }

  predicate NoTerms(required: Option<seq<Term>>) {
    required.None? || required.value == []
  }

  /** `removeArchitectureFromNodeSelector` followed by `applyArchitectureNodeAffinity`. */
  function Place(d: Directives, architectures: seq<string>): Directives {
    d.(nodeSelector := d.nodeSelector - {Arch},
       required :=
         if NoTerms(d.required) then Some([Term([ArchIn(architectures)], [])])
         else
           var terms := d.required.value;
           Some(seq(|terms|, i requires 0 <= i < |terms| => Placed(terms[i], architectures))))
  }

  function PlaceOnPod(p: PodState, architectures: seq<string>): PodState {
    p.(directives := Place(p.directives, architectures)).WithLabel(NodeAffinity, ValueOverriden)
  }

  /** Both the webhook and the controller let the first configuration that claims the pod win. */
  function FirstDecision(sorted: seq<Ppc>, verdict: string -> Verdict): (r: Option<seq<string>>)
    ensures r.Some? ==> r.value != []
  {
    if sorted == [] then None
    else if Decision(sorted[0], verdict).Some? then Decision(sorted[0], verdict)
    else FirstDecision(sorted[1..], verdict)
  }

  function PlaceFirst(p: PodState, sorted: seq<Ppc>, verdict: string -> Verdict): PodState {
    var decision := FirstDecision(sorted, verdict);
    if decision.Some? then PlaceOnPod(p, decision.value) else p
  }

  // ---------- Meaning ----------

  /** The part of a term that does not talk about the architecture. */
  predicate RestHolds(t: Term, n: Node) {
    AllHold(NonArch(t.expressions), n.labels) && AllHold(t.fields, n.fields)
  }

  lemma PlacedMeaning(t: Term, architectures: seq<string>, n: Node)
    ensures TermMatches(Placed(t, architectures), n) <==> RestHolds(t, n) && Holds(ArchIn(architectures), n.labels)
  {
    AllHoldConcat(NonArch(t.expressions), [ArchIn(architectures)], n.labels);
    assert Holds([ArchIn(architectures)][0], n.labels) == Holds(ArchIn(architectures), n.labels);
  }

  /** Exactly which nodes are feasible after the placement, for every pod and every node. */
  lemma PlaceFeasibility(d: Directives, architectures: seq<string>, n: Node)
    ensures Feasible(Place(d, architectures), n) <==>
            && Arch in n.labels && n.labels[Arch] in architectures
            && SelectorMatches(d.nodeSelector - {Arch}, n)
            && (NoTerms(d.required) || exists i | 0 <= i < |d.required.value| :: RestHolds(d.required.value[i], n))
    ensures !NoTerms(d.required) ==> |Place(d, architectures).required.value| == |d.required.value|
  {
    var placed := Place(d, architectures).required.value;
    if NoTerms(d.required) {
      PlacedMeaning(Term([], []), architectures, n);
      assert placed[0] == Placed(Term([], []), architectures);
      assert SomeTermMatches(placed, n) <==> TermMatches(placed[0], n);
    } else {
      var terms := d.required.value;
      forall i | 0 <= i < |terms|
        ensures TermMatches(placed[i], n) <==> RestHolds(terms[i], n) && Holds(ArchIn(architectures), n.labels)
      {
        PlacedMeaning(terms[i], architectures, n);
      }
      if SomeTermMatches(placed, n) {
        var i :| 0 <= i < |placed| && TermMatches(placed[i], n);
        assert RestHolds(terms[i], n);
      }
    }
  }

  lemma {:induction false} NonArchOfPlaced(expressions: seq<Requirement>, r: Requirement)
    requires r.key == Arch
    requires forall i | 0 <= i < |expressions| :: expressions[i].key != Arch
    ensures NonArch(expressions + [r]) == expressions
  {
    if expressions == [] {
      assert [] + [r] == [r];
      assert [r][1..] == [];
    } else {
      assert (expressions + [r])[1..] == expressions[1..] + [r];
      NonArchOfPlaced(expressions[1..], r);
    }
  }

  /** Re-applying a placement changes nothing. */
  lemma PlaceIsIdempotent(d: Directives, architectures: seq<string>)
    ensures Place(Place(d, architectures), architectures) == Place(d, architectures)
  {
    var once := Place(d, architectures);
    var twice := Place(once, architectures);
    forall i | 0 <= i < |once.required.value|
      ensures twice.required.value[i] == once.required.value[i]
    {
      if NoTerms(d.required) {
        NonArchOfPlaced([], ArchIn(architectures));
        assert [] + [ArchIn(architectures)] == [ArchIn(architectures)];
      } else {
        NonArchOfPlaced(NonArch(d.required.value[i].expressions), ArchIn(architectures));
      }
    }
    assert twice.required.value == once.required.value;
  }

  /** The term already ends in exactly this architecture requirement and names it nowhere else. */
  predicate AlreadyPlaced(t: Term, architectures: seq<string>) {
    var e := t.expressions;
    && e != []
    && e[|e| - 1] == ArchIn(architectures)
    && forall i | 0 <= i < |e| - 1 :: e[i].key != Arch
  }

  lemma PlacedOnlyAddsIff(t: Term, architectures: seq<string>)
    ensures TermOnlyAdds(t, Placed(t, architectures)) <==>
            !IsEmptyTerm(t) && (!NamesKey(t, Arch) || AlreadyPlaced(t, architectures))
  {
    var e, r := t.expressions, ArchIn(architectures);
    if NamesKey(t, Arch) {
      if e <= NonArch(e) + [r] {
        assert e == NonArch(e) + [r];
      }
      if AlreadyPlaced(t, architectures) {
        assert e == e[..|e| - 1] + [r];
        NonArchOfPlaced(e[..|e| - 1], r);
      }
    }
  }

  /** The pod does not select by architecture, and each of its required terms says something and names
      the architecture not at all or exactly as the placement would. */
  predicate CanPlace(d: Directives, architectures: seq<string>) {
    && Arch !in d.nodeSelector
    && (d.required.Some? ==> forall i | 0 <= i < |d.required.value| ::
          var t := d.required.value[i];
          !IsEmptyTerm(t) && (!NamesKey(t, Arch) || AlreadyPlaced(t, architectures)))
  }

  /** When the API server accepts the placement as an update of a gated pod. */
  lemma PlaceLegalIff(d: Directives, architectures: seq<string>)
    ensures LegalUpdate(d, Place(d, architectures)) <==> CanPlace(d, architectures)
  {
    if !NoTerms(d.required) {
      forall i | 0 <= i < |d.required.value| {
        PlacedOnlyAddsIff(d.required.value[i], architectures);
      }
    }
  }

  /** A pod that selects one architecture, and the placement on another that is refused. */
  lemma PlacementRefused() returns (d: Directives, architectures: seq<string>)
    ensures !LegalUpdate(d, Place(d, architectures))
  {
    d, architectures := Directives(map[Arch := "amd64"], None, []), ["arm64"];
    PlaceLegalIff(d, architectures);
  }

  // ---------- The in-place code ----------

  method RemoveArchitectureFromNodeSelector(pod: Pod) returns (removed: bool)
    modifies pod`nodeSelector
    ensures removed <==> Arch in old(pod.nodeSelector)
    ensures pod.nodeSelector == old(pod.nodeSelector) - {Arch}
  {
    if Arch in pod.nodeSelector {
      pod.nodeSelector := pod.nodeSelector - {Arch};
      return true;
    }
    return false;
  }

  method CleanedExpressions(expressions: seq<Requirement>) returns (cleaned: seq<Requirement>)
    ensures cleaned == NonArch(expressions)
  {
    cleaned := [];
    for i := 0 to |expressions|
      invariant cleaned == NonArch(expressions[..i])
    {
      NonArchSnoc(expressions[..i], expressions[i]);
      assert expressions[..i + 1] == expressions[..i] + [expressions[i]];
      if expressions[i].key != Arch {
        cleaned := cleaned + [expressions[i]];
      }
    }
    assert expressions[..|expressions|] == expressions;
  }

  lemma {:induction false} NonArchSnoc(a: seq<Requirement>, r: Requirement)
    ensures NonArch(a + [r]) == NonArch(a) + if r.key == Arch then [] else [r]
  {
    if a == [] {
      assert a + [r] == [r];
      assert [r][1..] == [];
    } else {
      assert (a + [r])[1..] == a[1..] + [r];
      NonArchSnoc(a[1..], r);
    }
  }

  method ApplyArchitectureNodeAffinity(pod: Pod, architectures: seq<string>)
    modifies pod`required
    ensures architectures == [] ==> pod.State() == old(pod.State())
    ensures architectures != [] ==>
              pod.State() == old(pod.State()).WithRequired(Place(old(pod.State()).directives, architectures).required)
  {
    if architectures == [] {
      return;
    }
    if pod.required.None? {
      pod.required := Some([]);
    }
    var requirement := ArchIn(architectures);
    if pod.required.value == [] {
      pod.required := Some([Term([requirement], [])]);
      return;
    }
    ghost var terms := pod.required.value;
    for i := 0 to |pod.required.value|
      invariant pod.required.Some? && |pod.required.value| == |terms|
      invariant forall j | 0 <= j < i :: pod.required.value[j] == Placed(terms[j], architectures)
      invariant forall j | i <= j < |terms| :: pod.required.value[j] == terms[j]
    {
      var cleaned := CleanedExpressions(pod.required.value[i].expressions);
      cleaned := cleaned + [requirement];
      pod.required := Some(pod.required.value[i := pod.required.value[i].(expressions := cleaned)]);
    }
    assert pod.required.value == Place(old(pod.State()).directives, architectures).required.value;
  }

  /** `applyCELArchitecturePlacement` (controller) and one turn of `applyCELInWebhook`. */
  method ApplyCel(ppc: Ppc, pod: Pod, verdict: string -> Verdict) returns (applied: bool)
    modifies pod`nodeSelector, pod`required, pod`labels
    ensures applied <==> Decision(ppc, verdict).Some?
    ensures pod.State() ==
            if applied then PlaceOnPod(old(pod.State()), Decision(ppc, verdict).value) else old(pod.State())
  {
    if ppc.cel.None? {
      return false;
    }
    var plugin := ppc.cel.value;
    var architectures: seq<string>;
    match RulesOutcome(plugin.rules, verdict) {
      case EveryRuleErrored =>
        return false;
      case Matched(rule) =>
        architectures := rule.architectures;
      case NoMatch =>
        architectures := plugin.fallback;
    }
    if architectures == [] {
      return false;
    }
    var _ := RemoveArchitectureFromNodeSelector(pod);
    ApplyArchitectureNodeAffinity(pod, architectures);
    pod.EnsureLabel(NodeAffinity, ValueOverriden);
    return true;
  }

  /** The loop over the sorted configurations, stopping at the first that claims the pod. */
  method ApplyFirstCel(sorted: seq<Ppc>, pod: Pod, verdict: string -> Verdict) returns (applied: bool)
    modifies pod`nodeSelector, pod`required, pod`labels
    ensures applied <==> FirstDecision(sorted, verdict).Some?
    ensures pod.State() == PlaceFirst(old(pod.State()), sorted, verdict)
  {
    for i := 0 to |sorted|
      invariant pod.State() == old(pod.State())
      invariant FirstDecision(sorted, verdict) == FirstDecision(sorted[i..], verdict)
    {
      assert sorted[i..][1..] == sorted[i + 1..];
      applied := ApplyCel(sorted[i], pod, verdict);
      if applied {
        return;
      }
    }
    return false;
  }
}
