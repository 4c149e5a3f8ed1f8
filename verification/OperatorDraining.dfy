/**
 The deletion over whole runs: once the webhook Service has been seen gone, nothing gates another pod
 however many passes it takes, until somebody creates a new configuration.
 */
module OperatorDraining {
  import opened Operator
  import opened OperatorSafety

  predicate Deleting(pc: Pc) {
    (InDeletion(pc) && !pc.DeleteController?) || (InEnoexec(pc) && pc.cause == Deletion)
  }

  /** A pass that deletes works for a configuration that is stored and being deleted. */
  predicate StoredDeleting(s: State) {
    Deleting(s.pc) ==> s.cluster.cppc.Some? && s.cluster.cppc.value.deleting
  }

  lemma EnvKeepsStoredDeleting(s: State, e: EnvEvent)
    requires Inv(s) && StoredDeleting(s)
    ensures StoredDeleting(s.(cluster := EnvStep(s.cluster, e)))
  {
    if Deleting(s.pc) {
      assert PodPlacement in s.local.finalizers;
      EnvKeepsFinalizer(s.cluster, e, PodPlacement);
    }
  }

  lemma EnoexecKeepsStoredDeleting(s: State, w: Work)
    requires Inv(s) && StoredDeleting(s) && InEnoexec(s.pc)
    ensures StoredDeleting(EnoexecStep(s, w))
  {
    assert PodPlacement in s.local.finalizers - {ExecError};
  }

  lemma DeletionKeepsStoredDeleting(s: State, w: Work)
    requires Inv(s) && StoredDeleting(s) && InDeletion(s.pc)
    ensures StoredDeleting(DeletionStep(s, w))
  {
  }

  lemma SetupKeepsStoredDeleting(s: State, w: Work)
    requires Inv(s) && !InEnoexec(s.pc) && !InDeletion(s.pc)
    ensures StoredDeleting(SetupStep(s, w))
  {
  }

  lemma {:induction false} ReachableStoredDeleting(events: seq<Event>)
    ensures StoredDeleting(Run(Init(), events))
    decreases events
  {
    if events != [] {
      var front, last := events[..|events| - 1], events[|events| - 1];
      var s := Run(Init(), front);
      ReachableStoredDeleting(front);
      ReachableInv(front);
      if last.Env? {
        EnvKeepsStoredDeleting(s, last.env);
      } else if last.Crash? {
        assert Step(s, last).pc.Idle?;
      } else if InEnoexec(s.pc) {
        EnoexecKeepsStoredDeleting(s, last.work);
      } else if InDeletion(s.pc) {
        DeletionKeepsStoredDeleting(s, last.work);
      } else {
        SetupKeepsStoredDeleting(s, last.work);
      }
    }
  }

  // ---------- Draining ----------

  /** The Service is gone, a configuration that is left is being deleted, and the worker does nothing
      but delete. */
  predicate Draining(s: State) {
    && WebhookService !in s.cluster.objs
    && (s.cluster.cppc.Some? ==> s.cluster.cppc.value.deleting)
    && (s.pc.Idle? || s.pc.DeleteController? || Deleting(s.pc))
  }

  predicate Creates(e: Event) {
    e.Env? && e.env.CreateCppc?
  }

  lemma EnvKeepsDraining(s: State, e: EnvEvent)
    requires Draining(s) && !e.CreateCppc?
    ensures Draining(s.(cluster := EnvStep(s.cluster, e)))
    ensures EnvStep(s.cluster, e).gated <= s.cluster.gated
  {
    EnvIsTame(s.cluster, e);
  }

  lemma EnoexecKeepsDraining(s: State, w: Work)
    requires Inv(s) && Draining(s) && InEnoexec(s.pc)
    ensures Draining(EnoexecStep(s, w)) && EnoexecStep(s, w).cluster.gated == s.cluster.gated
  {
  }

  lemma DeletionKeepsDraining(s: State, w: Work)
    requires Inv(s) && Draining(s) && InDeletion(s.pc)
    ensures Draining(DeletionStep(s, w)) && DeletionStep(s, w).cluster.gated == s.cluster.gated
  {
  }

  lemma IdleKeepsDraining(s: State, w: Work)
    requires Draining(s) && s.pc.Idle?
    ensures Draining(SetupStep(s, w)) && SetupStep(s, w).cluster.gated == s.cluster.gated
  {
  }

  lemma StepKeepsDraining(s: State, e: Event)
    requires Inv(s) && Draining(s) && !Creates(e)
    ensures Draining(Step(s, e)) && Step(s, e).cluster.gated <= s.cluster.gated
  {
    if e.Env? {
      EnvKeepsDraining(s, e.env);
    } else if e.Crash? {
      assert Step(s, e).cluster == s.cluster;
    } else if InEnoexec(s.pc) {
      EnoexecKeepsDraining(s, e.work);
    } else if InDeletion(s.pc) {
      DeletionKeepsDraining(s, e.work);
    } else {
      IdleKeepsDraining(s, e.work);
    }
  }

  lemma DrainingAfter(events: seq<Event>, e: Event)
    requires Draining(Run(Init(), events)) && !Creates(e)
    ensures Draining(Run(Init(), events + [e]))
    ensures Run(Init(), events + [e]).cluster.gated <= Run(Init(), events).cluster.gated
  {
    ReachableInv(events);
    assert (events + [e])[..|events|] == events;
    StepKeepsDraining(Run(Init(), events), e);
  }

  lemma {:induction false} DrainingStays(events: seq<Event>, later: seq<Event>)
    requires Draining(Run(Init(), events))
    requires forall i | 0 <= i < |later| :: !Creates(later[i])
    ensures Draining(Run(Init(), events + later))
    ensures Run(Init(), events + later).cluster.gated <= Run(Init(), events).cluster.gated
    decreases later
  {
    if later == [] {
      assert events + later == events;
    } else {
      var front, last := later[..|later| - 1], later[|later| - 1];
      DrainingStays(events, front);
      assert events + later == (events + front) + [last];
      DrainingAfter(events + front, last);
    }
  }

  /** Once `handleDelete` has seen the Service gone: in every continuation, over that pass, the failed
      passes after it and everything between them, the Service stays gone and no further pod is gated,
      until somebody creates a new configuration; and from the pod check on no pod is gated. */
  lemma NoGateAfterServiceCheck(events: seq<Event>, later: seq<Event>)
    requires var pc := Run(Init(), events).pc;
             pc.CheckPods? || pc.FetchController? || pc.ReleaseController? || pc.ReleasePodPlacement?
    requires forall i | 0 <= i < |later| :: !Creates(later[i])
    ensures var s, t := Run(Init(), events), Run(Init(), events + later);
            && WebhookService !in t.cluster.objs
            && t.cluster.gated <= s.cluster.gated
            && (!s.pc.CheckPods? ==> t.cluster.gated == {})
  {
    ReachableInv(events);
    ReachableStoredDeleting(events);
    DrainingStays(events, later);
  }
}
