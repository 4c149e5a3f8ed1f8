/**
 The persisted state of a pod as the operator sees it, and the specification functions of the
 operations of pkg/models/pod.go and internal/controller/podplacement/pod_model.go.
 */
module PodModel {
  import opened Decimal
  import opened Keys
  import opened Kubernetes

  const ValueSet := "set"
  const ValueNotSet := "not-set"
  const ValueOverriden := "overriden"
  const ValueGated := "gated"
  const ValueRemoved := "removed"

  const MaxRetryCount := 5

  datatype OwnerReference = OwnerReference(kind: string, isController: bool)

  datatype Container = Container(image: string, pullAlways: bool)

  datatype PodState = PodState(
    name: string,
    namespace: string,
    nodeName: string,
    owners: seq<OwnerReference>,
    containers: seq<Container>,
    initContainers: seq<Container>,
    labels: Option<map<Key, string>>,
    annotations: map<Key, string>,
    gates: seq<Key>,
    directives: Directives)
  {
    function AllContainers(): seq<Container> {
      containers + initContainers
    }

    /** Reading a nil Go map is reading an empty one. */
    function Labels(): map<Key, string> {
      if labels.Some? then labels.value else map[]
    }

    function WithLabel(key: Key, value: string): PodState {
      this.(labels := Some(Labels()[key := value]))
    }

    function WithoutLabel(key: Key): PodState {
      if labels.None? then this else this.(labels := Some(labels.value - {key}))
    }

    function WithAnnotation(annotation: Key, value: string): PodState {
      this.(annotations := annotations[annotation := value])
    }

    function Label(key: Key): Option<string> {
      if key in Labels() then Some(Labels()[key]) else None
    }

    predicate Gated() {
      SchedulingGate in gates
    }

    function WithRequired(required: Option<seq<Term>>): PodState {
      this.(directives := directives.(required := required))
    }
  }

  // ---------- Gates ----------

  function Without(gates: seq<Key>, gate: Key): (r: seq<Key>)
    ensures gate !in r
    ensures gate !in gates ==> r == gates
  {
    if gates == [] then []
    else if gates[0] == gate then Without(gates[1..], gate)
    else [gates[0]] + Without(gates[1..], gate)
  }

  function AddGate(p: PodState, gate: Key): PodState {
    if gate in p.gates then p else p.(gates := p.gates + [gate])
  }

  function RemoveGate(p: PodState, gate: Key): PodState {
    p.(gates := Without(p.gates, gate))
  }

  /** `RemoveSchedulingGate` */
  function Ungate(p: PodState): (r: PodState)
    ensures !r.Gated()
  {
    RemoveGate(p, SchedulingGate).WithLabel(SchedulingGate, ValueRemoved)
  }

  lemma {:induction false} WithoutConcat(a: seq<Key>, b: seq<Key>, gate: Key)
    ensures Without(a + b, gate) == Without(a, gate) + Without(b, gate)
  {
    if a == [] {
      assert a + b == b;
    } else {
      assert (a + b)[1..] == a[1..] + b;
      WithoutConcat(a[1..], b, gate);
    }
  }

  // ---------- The retry counter ----------

  /** `EnsureAndIncrementLabel` on the text of the label. */
  function Incremented(text: Option<string>): string {
    if text.None? then "1"
    else
      var current := ParseInt(text.value, 32);
      if current.None? then "1" else Print(current.value + 1)
  }

  /** `maxRetries` on the labels map: an absent label reads as "", which does not parse. */
  predicate MaxRetries(p: PodState) {
    p.labels.Some? &&
    var count := ParseInt(if InspectionErrorCount in p.Labels()
                          then p.Labels()[InspectionErrorCount] else "", 32);
    count.None? || count.value >= MaxRetryCount
  }

  function HandleError(p: PodState, message: string): PodState {
    var text := if |message| > 256 then message[..256] else message;
    p.WithLabel(InspectionError, "")
     .WithAnnotation(InspectionError, text)
     .WithLabel(InspectionErrorCount, Incremented(p.Label(InspectionErrorCount)))
  }

  // ---------- Required architecture affinity ----------

  predicate NamesKey(t: Term, key: Key) {
    exists i | 0 <= i < |t.expressions| :: t.expressions[i].key == key
  }

  /** The loop body of `setRequiredArchNodeAffinity` for one term. */
  function AddRequirement(t: Term, r: Requirement): Term {
    if NamesKey(t, r.key) then t else t.(expressions := t.expressions + [r])
  }

  function TermsOrOne(required: Option<seq<Term>>): (terms: seq<Term>)
    ensures terms != []
  {
    if required.None? || required.value == [] then [Term([], [])] else required.value
  }

  /** `setRequiredArchNodeAffinity` on the required terms. */
  function Require(required: Option<seq<Term>>, r: Requirement): Option<seq<Term>> {
    var terms := TermsOrOne(required);
    Some(seq(|terms|, i requires 0 <= i < |terms| => AddRequirement(terms[i], r)))
  }

  /** `isNodeSelectorConfiguredForArchitecture`: note that it also holds of a required selector
      that is present with no terms. */
  predicate ArchConfigured(d: Directives) {
    || Arch in d.nodeSelector
    || (d.required.Some? &&
        forall i | 0 <= i < |d.required.value| :: NamesKey(d.required.value[i], Arch))
  }

  predicate NoEmptyTerm(d: Directives) {
    d.required.Some? ==> forall i | 0 <= i < |d.required.value| :: !IsEmptyTerm(d.required.value[i])
  }

  /** The node was feasible through a term that already names the key. */
  predicate FeasibleThrough(d: Directives, key: Key, n: Node) {
    && SelectorMatches(d.nodeSelector, n)
    && d.required.Some?
    && exists i | 0 <= i < |d.required.value| ::
         NamesKey(d.required.value[i], key) && TermMatches(d.required.value[i], n)
  }

  lemma AddRequirementMeaning(t: Term, r: Requirement, n: Node)
    ensures TermMatches(AddRequirement(t, r), n) <==>
            if NamesKey(t, r.key) then TermMatches(t, n)
            else (TermMatches(t, n) || IsEmptyTerm(t)) && Holds(r, n.labels)
  {
    if !NamesKey(t, r.key) {
      AllHoldConcat(t.expressions, [r], n.labels);
      assert Holds([r][0], n.labels) == Holds(r, n.labels);
    }
  }

  /** The pod asks for a node through a term without expressions, or through a selector without
      terms. Kubernetes lets such a term or selector match nothing; patching fills it. */
  predicate AsksThroughNothing(d: Directives, n: Node) {
    && SelectorMatches(d.nodeSelector, n)
    && d.required.Some?
    && (d.required.value == [] || exists i | 0 <= i < |d.required.value| :: IsEmptyTerm(d.required.value[i]))
  }

  /** What patching does to the feasible nodes, for every pod and every node: those stay that are
      feasible through a term naming the key, or feasible and as required; and those come that are as
      required and were asked for through nothing. */
  lemma RequireFeasibility(d: Directives, r: Requirement, n: Node)
    ensures Feasible(d.(required := Require(d.required, r)), n) <==>
            || FeasibleThrough(d, r.key, n)
            || (Holds(r, n.labels) && (Feasible(d, n) || AsksThroughNothing(d, n)))
  {
    var terms, patched := TermsOrOne(d.required), Require(d.required, r).value;
    forall i | 0 <= i < |terms|
      ensures patched[i] == AddRequirement(terms[i], r)
      ensures TermMatches(patched[i], n) <==>
              || (NamesKey(terms[i], r.key) && TermMatches(terms[i], n))
              || (Holds(r, n.labels) && (TermMatches(terms[i], n) || IsEmptyTerm(terms[i])))
    {
      AddRequirementMeaning(terms[i], r, n);
    }
    if d.required.None? || d.required.value == [] {
      assert IsEmptyTerm(terms[0]);
      assert SomeTermMatches(patched, n) <==> TermMatches(patched[0], n);
    } else {
      assert terms == d.required.value;
      assert SomeTermMatches(patched, n) <==> exists i | 0 <= i < |patched| :: TermMatches(patched[i], n);
    }
  }

  /** Exactly when patching lets a node in that was kept out. */
  lemma PatchGainsNodeIff(d: Directives, r: Requirement, n: Node)
    requires !Feasible(d, n)
    ensures Feasible(d.(required := Require(d.required, r)), n) <==> Holds(r, n.labels) && AsksThroughNothing(d, n)
  {
    RequireFeasibility(d, r, n);
    assert !FeasibleThrough(d, r.key, n);
  }

  /** A patched pod with an empty term can gain nodes: the operator turns "no node" into "arch". */
  lemma EmptyTermGainsNodes(arch: string)
    ensures exists d: Directives, n: Node ::
              && !NoEmptyTerm(d) && !ArchConfigured(d)
              && !Feasible(d, n)
              && Feasible(d.(required := Require(d.required, Requirement(Arch, In, [arch]))), n)
  {
    var d := Directives(map[], Some([Term([], [])]), []);
    var n := Node(map[Arch := arch], map[]);
    var r := Requirement(Arch, In, [arch]);
    assert IsEmptyTerm(d.required.value[0]);
    AddRequirementMeaning(Term([], []), r, n);
    var after := Require(d.required, r);
    assert after.value[0] == AddRequirement(Term([], []), r);
    assert TermMatches(after.value[0], n);
    assert Feasible(d.(required := after), n);
  }

  /** Patching is a legal update of a gated pod exactly when there is no empty term. */
  lemma RequireLegalIff(d: Directives, r: Requirement)
    ensures LegalUpdate(d, d.(required := Require(d.required, r))) <==> NoEmptyTerm(d)
  {
    if d.required.Some? && d.required.value != [] {
      var terms, patched := d.required.value, Require(d.required, r).value;
      forall i | 0 <= i < |terms|
        ensures TermOnlyAdds(terms[i], patched[i]) <==> !IsEmptyTerm(terms[i])
      {
        assert patched[i] == AddRequirement(terms[i], r);
      }
    }
  }

  lemma RequireNamesKey(required: Option<seq<Term>>, r: Requirement)
    ensures forall i | 0 <= i < |Require(required, r).value| :: NamesKey(Require(required, r).value[i], r.key)
  {
    var terms, patched := TermsOrOne(required), Require(required, r).value;
    forall i | 0 <= i < |patched| ensures NamesKey(patched[i], r.key) {
      if !NamesKey(terms[i], r.key) {
        assert patched[i].expressions[|terms[i].expressions|].key == r.key;
      }
    }
  }

  // ---------- The image path ----------

  /** Outcome of intersecting the architectures of the pod's images. */
  datatype Inspection = InspectionFailed(message: string) | Inspected(architectures: seq<string>)

  /** `getArchitecturePredicate` */
  function ArchitecturePredicate(architectures: seq<string>): Requirement {
    if architectures == [] then Requirement(NoSupportedArch, Exists, [])
    else Requirement(Arch, In, architectures)
  }

  function SupportedLabels(labels: map<Key, string>, values: seq<string>): map<Key, string>
    decreases values
  {
    if values == [] then labels
    else
      SupportedLabels(
        if values[0] in SupportedArchitectures then labels[SupportedArch(values[0]) := ""] else labels,
        values[1..])
  }

  /** `ensureArchitectureLabels`: a nil value list (no supported architecture) adds nothing. */
  function ArchitectureLabels(p: PodState, values: seq<string>): PodState {
    if values == [] then p
    else
      var q := p.WithLabel(if |values| == 1 then SingleArch else MultiArch, "");
      q.(labels := Some(SupportedLabels(q.Labels(), values)))
  }

  function RequireOnPod(p: PodState, r: Requirement): PodState {
    p.WithRequired(Require(p.directives.required, r)).WithLabel(NodeAffinity, ValueSet)
  }

  /** `SetNodeAffinityArchRequirement`, and whether it returned an error. */
  function SetArchRequirement(p: PodState, inspection: Inspection): (r: (PodState, bool)) {
    if ArchConfigured(p.directives) then (p.WithLabel(NodeAffinity, ValueNotSet), false)
    else if inspection.InspectionFailed? then (p, true)
    else
      (RequireOnPod(ArchitectureLabels(p.WithoutLabel(InspectionError), inspection.architectures),
                    ArchitecturePredicate(inspection.architectures)),
       false)
  }

  /** `setRequiredNodeAffinityToFallbackArchitecture` */
  function SetFallback(p: PodState, architecture: string): PodState {
    RequireOnPod(p, Requirement(Arch, In, [architecture]))
      .WithLabel(FallbackArch, architecture)
  }

  // ---------- Labels no operation but the gate and the error path writes ----------

  lemma {:induction false} SupportedLabelsElsewhere(labels: map<Key, string>, values: seq<string>, key: Key)
    requires !key.SupportedArch?
    ensures key in SupportedLabels(labels, values) <==> key in labels
    ensures key in labels ==> SupportedLabels(labels, values)[key] == labels[key]
    decreases values
  {
    if values != [] {
      var next := if values[0] in SupportedArchitectures then labels[SupportedArch(values[0]) := ""] else labels;
      SupportedLabelsElsewhere(next, values[1..], key);
    }
  }

  /** The per-architecture labels the image path adds: one for each supported architecture listed. */
  lemma {:induction false} SupportedLabelsExactly(labels: map<Key, string>, values: seq<string>, a: string)
    ensures SupportedArch(a) in SupportedLabels(labels, values) <==>
            SupportedArch(a) in labels || (a in values && a in SupportedArchitectures)
    decreases values
  {
    if values != [] {
      var next := if values[0] in SupportedArchitectures then labels[SupportedArch(values[0]) := ""] else labels;
      SupportedLabelsExactly(next, values[1..], a);
    }
  }

  /** The image path and the fallback leave the retry counter and the gate label alone. */
  lemma AffinityKeepsLabels(p: PodState, inspection: Inspection, fallback: string, key: Key)
    requires key == SchedulingGate || key == InspectionErrorCount
    ensures SetArchRequirement(p, inspection).0.Label(key) == p.Label(key)
    ensures SetFallback(p, fallback).Label(key) == p.Label(key)
  {
    if !ArchConfigured(p.directives) && inspection.Inspected? && inspection.architectures != [] {
      var q := p.WithoutLabel(InspectionError)
                .WithLabel(if |inspection.architectures| == 1 then SingleArch else MultiArch, "");
      SupportedLabelsElsewhere(q.Labels(), inspection.architectures, key);
    }
  }
}
