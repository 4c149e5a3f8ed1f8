/**
 The part of the Kubernetes core/v1 API the operator rewrites, with the scheduler's meaning:
 required node-selector terms are ORed, the expressions and fields of one term are ANDed, a
 term with neither matches no node, and preferred terms add their weight to a node's score.
 */
module Kubernetes {
  import opened Decimal
  import opened Keys

  datatype Operator = In | NotIn | Exists | DoesNotExist | Gt | Lt

  datatype Requirement = Requirement(key: Key, operator: Operator, values: seq<string>)

  datatype Term = Term(expressions: seq<Requirement>, fields: seq<Requirement>)

  datatype PreferredTerm = PreferredTerm(weight: int, preference: Term)

  datatype Node = Node(labels: map<Key, string>, fields: map<Key, string>)

  /** The scheduling directives of a pod spec. `required == None` is nil, at any depth
      of `affinity.nodeAffinity.requiredDuringSchedulingIgnoredDuringExecution`. */
  datatype Directives = Directives(
    nodeSelector: map<Key, string>,
    required: Option<seq<Term>>,
    preferred: seq<PreferredTerm>)

  // ---------- Meaning ----------

  predicate Holds(r: Requirement, attributes: map<Key, string>) {
    match r.operator
    case In => r.key in attributes && attributes[r.key] in r.values
    case NotIn => r.key in attributes ==> attributes[r.key] !in r.values
    case Exists => r.key in attributes
    case DoesNotExist => r.key !in attributes
    case Gt => Compares(r, attributes) && ParseInt(attributes[r.key], 64).value > ParseInt(r.values[0], 64).value
    case Lt => Compares(r, attributes) && ParseInt(attributes[r.key], 64).value < ParseInt(r.values[0], 64).value
  }

  predicate Compares(r: Requirement, attributes: map<Key, string>) {
    && |r.values| == 1
    && r.key in attributes
    && ParseInt(attributes[r.key], 64).Some?
    && ParseInt(r.values[0], 64).Some?
  }

  predicate AllHold(rs: seq<Requirement>, attributes: map<Key, string>) {
    forall i | 0 <= i < |rs| :: Holds(rs[i], attributes)
  }

  predicate IsEmptyTerm(t: Term) {
    t.expressions == [] && t.fields == []
  }

  predicate TermMatches(t: Term, n: Node) {
    !IsEmptyTerm(t) && AllHold(t.expressions, n.labels) && AllHold(t.fields, n.fields)
  }

  predicate SomeTermMatches(terms: seq<Term>, n: Node) {
    exists i | 0 <= i < |terms| :: TermMatches(terms[i], n)
  }

  predicate RequiredMatches(required: Option<seq<Term>>, n: Node) {
    required.Some? ==> SomeTermMatches(required.value, n)
  }

  predicate SelectorMatches(selector: map<Key, string>, n: Node) {
    forall k | k in selector :: k in n.labels && n.labels[k] == selector[k]
  }

  predicate Feasible(d: Directives, n: Node) {
    SelectorMatches(d.nodeSelector, n) && RequiredMatches(d.required, n)
  }

  function TermScore(t: PreferredTerm, n: Node): int {
    if TermMatches(t.preference, n) then t.weight else 0
  }

  /** The node-affinity score the scheduler gives a node. */
  function Score(preferred: seq<PreferredTerm>, n: Node): int {
    if preferred == [] then 0 else TermScore(preferred[0], n) + Score(preferred[1..], n)
  }

  lemma {:induction false} ScoreConcat(a: seq<PreferredTerm>, b: seq<PreferredTerm>, n: Node)
    ensures Score(a + b, n) == Score(a, n) + Score(b, n)
  {
    if a == [] {
      assert a + b == b;
    } else {
      assert (a + b)[1..] == a[1..] + b;
      ScoreConcat(a[1..], b, n);
    }
  }

  lemma AllHoldConcat(a: seq<Requirement>, b: seq<Requirement>, attributes: map<Key, string>)
    ensures AllHold(a + b, attributes) <==> AllHold(a, attributes) && AllHold(b, attributes)
  {
    if AllHold(a + b, attributes) {
      assert forall i | 0 <= i < |a| :: a[i] == (a + b)[i];
      assert forall i | 0 <= i < |b| :: b[i] == (a + b)[|a| + i];
    }
  }

  // ---------- Legal updates of a gated pod (KEP-3838) ----------

  /** The update of one term may only append requirements, and may not fill an empty term. */
  predicate TermOnlyAdds(before: Term, after: Term) {
    && before.expressions <= after.expressions
    && before.fields <= after.fields
    && (IsEmptyTerm(before) ==> IsEmptyTerm(after))
  }

  predicate RequiredOnlyAdds(before: Option<seq<Term>>, after: Option<seq<Term>>) {
    before.Some? && before.value != [] ==>
      && after.Some?
      && |after.value| == |before.value|
      && forall i | 0 <= i < |before.value| :: TermOnlyAdds(before.value[i], after.value[i])
  }

  predicate SelectorOnlyAdds(before: map<Key, string>, after: map<Key, string>) {
    forall k | k in before :: k in after && after[k] == before[k]
  }

  /** Section "Mutable Pod scheduling directives" of the "Pod Scheduling Readiness" page. */
  predicate LegalUpdate(before: Directives, after: Directives) {
    && SelectorOnlyAdds(before.nodeSelector, after.nodeSelector)
    && RequiredOnlyAdds(before.required, after.required)
  }

  /** What the rule is for: a legal update never makes a node feasible that was not, unless it
      starts from the degenerate "present but without terms" selector. */
  lemma LegalUpdateOnlyNarrows(before: Directives, after: Directives, n: Node)
    requires LegalUpdate(before, after)
    requires before.required != Some([])
    requires Feasible(after, n)
    ensures Feasible(before, n)
  {
    if before.required.Some? {
      var i :| 0 <= i < |after.required.value| && TermMatches(after.required.value[i], n);
      var b, a := before.required.value[i], after.required.value[i];
      assert TermOnlyAdds(b, a);
      assert a.expressions == b.expressions + a.expressions[|b.expressions|..];
      assert a.fields == b.fields + a.fields[|b.fields|..];
      AllHoldConcat(b.expressions, a.expressions[|b.expressions|..], n.labels);
      AllHoldConcat(b.fields, a.fields[|b.fields|..], n.fields);
      assert TermMatches(b, n);
    }
  }
}
