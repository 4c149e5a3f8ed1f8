/**
 When a gated pod is released: the exact condition for one pass and for whole runs, in terms of the
 pod at the start and of what the passes see; how many passes it takes; and the runs that never end.
 */
module Retries {
  import opened Decimal
  import opened Keys
  import opened PodModel
  import opened Placement
  import opened Reconciler
  import opened Runs

  // ---------- One pass ----------

  predicate Ignores(p: PodState, i: Pass)
    requires i.listing.Listed?
  {
    ShouldIgnore(p, i.operatorNamespace, i.cppc, i.listing.matching)
  }

  /** The pass takes the gate off a pod with this much budget left. */
  predicate Releases(p: PodState, i: Pass, budget: nat) {
    && !i.updateFails && i.listing.Listed?
    && (|| Ignores(p, i)
        || if i.Decision().Some? then CanPlace(p.directives, i.Decision().value)
           else || ArchConfigured(p.directives)
                || (i.inspection.Inspected? && NoEmptyTerm(p.directives))
                || (i.inspection.InspectionFailed? && budget == 1 && (i.Fallback() == "" || NoEmptyTerm(p.directives))))
  }

  /** The pass leaves the gate on and the counter one higher. */
  predicate Counts(p: PodState, i: Pass, budget: nat) {
    && !i.updateFails
    && (|| i.listing.ListFailed?
        || (&& !Ignores(p, i) && i.Decision().None? && !ArchConfigured(p.directives)
            && i.inspection.InspectionFailed? && budget > 1))
  }

  /** The counter after a pass that does not release the pod. */
  function Advanced(p: PodState, i: Pass, text: Option<string>): Option<string> {
    if Counts(p, i, Budget(text)) then Some(Incremented(text)) else text
  }

  /** All that later passes will ask about the pod, besides its counter. */
  predicate SameFate(p: PodState, q: PodState) {
    && SamePod(p, q) && SameRequired(p.directives, q.directives)
    && (ArchConfigured(p.directives) ==> q.directives.preferred == p.directives.preferred)
  }

  lemma SameFateSameAnswers(p: PodState, q: PodState, i: Pass, budget: nat)
    requires SameFate(p, q)
    ensures Releases(p, i, budget) <==> Releases(q, i, budget)
    ensures Counts(p, i, budget) <==> Counts(q, i, budget)
  {
  }

  lemma PassOutcome(p: PodState, i: Pass)
    requires p.Gated()
    ensures !Reconcile(p, i).Gated() <==> Releases(p, i, Budget(p.Label(InspectionErrorCount)))
    ensures Reconcile(p, i).Gated() ==>
              && SameFate(p, Reconcile(p, i))
              && Reconcile(p, i).Label(InspectionErrorCount) == Advanced(p, i, p.Label(InspectionErrorCount))
  {
    PassGate(p, i);
    SubmittedLegalIff(p, i);
  }

  // ---------- Whole runs ----------

  /** The counter after passes none of which releases the pod. */
  function Counted(p: PodState, text: Option<string>, passes: seq<Pass>): Option<string>
    decreases passes
  {
    if passes == [] then text else Counted(p, Advanced(p, passes[0], text), passes[1..])
  }

  ghost predicate Released(p: PodState, text: Option<string>, passes: seq<Pass>) {
    exists k | 0 <= k < |passes| :: Releases(p, passes[k], Budget(Counted(p, text, passes[..k])))
  }

  lemma ReleasedStep(p: PodState, text: Option<string>, passes: seq<Pass>)
    requires passes != []
    ensures Released(p, text, passes) <==>
            Releases(p, passes[0], Budget(text)) || Released(p, Advanced(p, passes[0], text), passes[1..])
  {
    var rest, next := passes[1..], Advanced(p, passes[0], text);
    assert passes[..0] == [];
    forall k | 0 <= k < |rest| ensures Counted(p, text, passes[..k + 1]) == Counted(p, next, rest[..k]) {
      assert passes[..k + 1][0] == passes[0] && passes[..k + 1][1..] == rest[..k];
    }
    if Releases(p, passes[0], Budget(text)) {
      assert Releases(p, passes[0], Budget(Counted(p, text, passes[..0])));
    }
    if k :| 0 <= k < |rest| && Releases(p, rest[k], Budget(Counted(p, next, rest[..k]))) {
      assert Releases(p, passes[k + 1], Budget(Counted(p, text, passes[..k + 1])));
    }
    if k :| 0 < k < |passes| && Releases(p, passes[k], Budget(Counted(p, text, passes[..k]))) {
      assert Releases(p, rest[k - 1], Budget(Counted(p, next, rest[..k - 1])));
    }
  }

  lemma {:induction false} UngatedIffFrom(p: PodState, q: PodState, passes: seq<Pass>)
    requires q.Gated() && SameFate(p, q)
    ensures !Run(q, passes).Gated() <==> Released(p, q.Label(InspectionErrorCount), passes)
    decreases passes
  {
    if passes != [] {
      var text, next := q.Label(InspectionErrorCount), Reconcile(q, passes[0]);
      PassOutcome(q, passes[0]);
      SameFateSameAnswers(p, q, passes[0], Budget(text));
      ReleasedStep(p, text, passes);
      if next.Gated() {
        UngatedIffFrom(p, next, passes[1..]);
      } else {
        UngatedStays(next, passes[1..]);
      }
    }
  }

  /** Exactly which runs release a pod: those in which some pass releases it with the budget that is
      left, where the budget is counted from the pod's counter and what the earlier passes saw. */
  lemma UngatedIff(p: PodState, passes: seq<Pass>)
    requires p.Gated()
    ensures !Run(p, passes).Gated() <==>
            exists k | 0 <= k < |passes| ::
              Releases(p, passes[k], Budget(Counted(p, p.Label(InspectionErrorCount), passes[..k])))
  {
    UngatedIffFrom(p, p, passes);
  }

  // ---------- How the budget is counted ----------

  /** The counter is the largest 32-bit number, and the next increment is not a number any more. */
  predicate AtEdge(text: Option<string>) {
    text.Some? && ParseInt(text.value, 32) == Some(PowerOfTwo(31) - 1)
  }

  /** What an increment does to the budget of a pod that stays gated: it spends one unit, the last one
      stays, and at the edge all five come back. */
  lemma IncrementedBudget(text: Option<string>)
    ensures Budget(Some(Incremented(text))) ==
            if AtEdge(text) then 5 else if Budget(text) == 1 then 1 else Budget(text) - 1
  {
    IncrementedReads(text);
  }

  /** A pod at its last attempt that gets all five back because the configurations cannot be listed. */
  lemma EdgeRegainsBudget(largest: int) returns (text: string)
    requires largest == PowerOfTwo(31) - 1
    ensures Budget(Some(text)) == 1 && Budget(Some(Incremented(Some(text)))) == 5
  {
    PowerOfTwoExceeds(31);
    text := Print(largest);
    ParsePrint(largest, 32);
    IncrementedBudget(Some(text));
  }

  // ---------- How many passes it takes ----------

  /** The pass can be persisted whatever the budget: its listing and update work, and the pod has room
      for what it would submit. */
  predicate Works(p: PodState, i: Pass) {
    && !i.updateFails && i.listing.Listed?
    && (|| Ignores(p, i)
        || if i.Decision().Some? then CanPlace(p.directives, i.Decision().value)
           else || ArchConfigured(p.directives) || NoEmptyTerm(p.directives)
                || (i.inspection.InspectionFailed? && i.Fallback() == ""))
  }

  function Working(p: PodState, passes: seq<Pass>): nat {
    if passes == [] then 0 else (if Works(p, passes[0]) then 1 else 0) + Working(p, passes[1..])
  }

  /** How often passes that cannot list push the counter over the edge. */
  function Wraps(p: PodState, text: Option<string>, passes: seq<Pass>): nat
    decreases passes
  {
    if passes == [] then 0
    else
      (if !passes[0].updateFails && passes[0].listing.ListFailed? && AtEdge(text) then 1 else 0)
      + Wraps(p, Advanced(p, passes[0], text), passes[1..])
  }

  lemma {:induction false} BudgetRunsOut(p: PodState, text: Option<string>, passes: seq<Pass>)
    requires Working(p, passes) >= Budget(text) + 4 * Wraps(p, text, passes)
    ensures Released(p, text, passes)
    decreases passes
  {
    ReleasedStep(p, text, passes);
    if !Releases(p, passes[0], Budget(text)) {
      IncrementedBudget(text);
      BudgetRunsOut(p, Advanced(p, passes[0], text), passes[1..]);
    }
  }

  /** Every pod is ungated once as many passes work as its budget says, and four more for each time the
      counter wraps, whatever they see and whatever other passes come in between. */
  lemma RetriesEnd(p: PodState, passes: seq<Pass>)
    requires Working(p, passes) >= Budget(p.Label(InspectionErrorCount)) + 4 * Wraps(p, p.Label(InspectionErrorCount), passes)
    ensures !Run(p, passes).Gated()
  {
    if p.Gated() {
      BudgetRunsOut(p, p.Label(InspectionErrorCount), passes);
      UngatedIff(p, passes);
    } else {
      UngatedStays(p, passes);
    }
  }

  /** The counter does not wrap in runs too short to reach the edge. */
  lemma {:induction false} ShortRunsDoNotWrap(p: PodState, text: Option<string>, passes: seq<Pass>)
    requires Counter(text) + |passes| < PowerOfTwo(31)
    ensures Wraps(p, text, passes) == 0
    decreases passes
  {
    if passes != [] {
      IncrementedReads(text);
      ShortRunsDoNotWrap(p, Advanced(p, passes[0], text), passes[1..]);
    }
  }

  /** The bound is exact: with every inspection failing, the pod is still gated one pass earlier. */
  lemma {:induction false} RetriesLast(p: PodState, passes: seq<Pass>)
    requires p.Gated() && !ArchConfigured(p.directives)
    requires forall k | 0 <= k < |passes| ::
               && passes[k].listing.Listed? && passes[k].Decision().None?
               && !OutOfScope(p, passes[k].operatorNamespace)
               && passes[k].inspection.InspectionFailed?
    requires |passes| < Budget(p.Label(InspectionErrorCount))
    ensures Run(p, passes).Gated()
    decreases passes
  {
    if passes != [] {
      PassGate(p, passes[0]);
      var q := Reconcile(p, passes[0]);
      forall k | 0 <= k < |passes| - 1 ensures !OutOfScope(q, passes[1..][k].operatorNamespace) {
        assert !OutOfScope(p, passes[k + 1].operatorNamespace);
      }
      RetriesLast(q, passes[1..]);
    }
  }

  // ---------- Retries that never end ----------

  lemma {:induction false} RefusedStays(p: PodState, passes: seq<Pass>)
    requires forall k | 0 <= k < |passes| :: !Accepted(p, passes[k])
    ensures Run(p, passes) == p
    decreases passes
  {
    if passes != [] {
      RefusedStays(p, passes[1..]);
    }
  }

  /** The pass has something to submit that the pod has no room for: a patch or a fallback, because of an
      empty term, or an override. */
  predicate Refused(p: PodState, i: Pass, budget: nat) {
    && i.listing.Listed? && !Ignores(p, i)
    && if i.Decision().Some? then !CanPlace(p.directives, i.Decision().value)
       else && !ArchConfigured(p.directives) && !NoEmptyTerm(p.directives)
            && (i.inspection.InspectionFailed? ==> budget == 1 && i.Fallback() != "")
  }

  /** A pass releases the pod, or counts, or its update fails by itself, or it is refused. */
  lemma FourOutcomes(p: PodState, i: Pass, budget: nat)
    requires budget >= 1
    ensures !Releases(p, i, budget) && !Counts(p, i, budget) <==> i.updateFails || Refused(p, i, budget)
    ensures !(Releases(p, i, budget) && Counts(p, i, budget))
  {
  }

  /** A pod whose passes are all refused stays as it is for ever, counter and all. */
  lemma StuckForever(p: PodState, passes: seq<Pass>)
    requires forall k | 0 <= k < |passes| :: Refused(p, passes[k], Budget(p.Label(InspectionErrorCount)))
    ensures Run(p, passes) == p
  {
    forall k | 0 <= k < |passes| ensures !Accepted(p, passes[k]) {
      SubmittedLegalIff(p, passes[k]);
    }
    RefusedStays(p, passes);
  }

  /** The first family: an empty term, and images that can be inspected. */
  lemma EmptyTermIsStuck(p: PodState, passes: seq<Pass>)
    requires !NoEmptyTerm(p.directives) && !ArchConfigured(p.directives)
    requires forall k | 0 <= k < |passes| ::
               && passes[k].listing.Listed? && passes[k].Decision().None?
               && !OutOfScope(p, passes[k].operatorNamespace)
               && passes[k].inspection.Inspected?
    ensures Run(p, passes) == p
  {
    StuckForever(p, passes);
  }

  /** The second: an empty term, the last attempt, and a fallback architecture. */
  lemma FallbackIsStuck(p: PodState, passes: seq<Pass>)
    requires !NoEmptyTerm(p.directives) && !ArchConfigured(p.directives)
    requires Budget(p.Label(InspectionErrorCount)) == 1
    requires forall k | 0 <= k < |passes| ::
               && passes[k].listing.Listed? && passes[k].Decision().None?
               && !OutOfScope(p, passes[k].operatorNamespace)
               && passes[k].inspection.InspectionFailed? && passes[k].Fallback() != ""
    ensures Run(p, passes) == p
  {
    StuckForever(p, passes);
  }

  /** The third: an override that comes after the pod was persisted and finds no room. */
  lemma LateOverrideIsStuck(p: PodState, passes: seq<Pass>)
    requires forall k | 0 <= k < |passes| ::
               && passes[k].listing.Listed? && !Ignores(p, passes[k])
               && passes[k].Decision().Some? && !CanPlace(p.directives, passes[k].Decision().value)
    ensures Run(p, passes) == p
  {
    StuckForever(p, passes);
  }
}
