/**
 What the operator waits for. While PodPlacementConfigs are left a configuration that is being deleted
 stays, with the finalizer that says so, and nothing of the operand is touched. And while the webhook is
 not ready its configuration stays away.
 */
module OperatorWaiting {
  import opened Operator
  import opened OperatorSafety

  /** A deletion that has not got past its check for PodPlacementConfigs. */
  predicate BeforeCheck(pc: Pc) {
    pc.ReportStatus? || pc.CheckPpcs? || (InEnoexec(pc) && pc.cause == Deletion)
  }

  predicate Waiting(s: State) {
    && s.cluster.cppc.Some? && s.cluster.cppc.value.deleting && NoPpc in s.cluster.cppc.value.finalizers
    && s.cluster.ppcs != {}
    && (s.pc.Idle? || (BeforeCheck(s.pc) && NoPpc in s.local.finalizers))
  }

  /** The objects that the webhook and the pod controller consist of. */
  predicate IsOperand(o: Obj) {
    o.name == PodPlacementController || o.name == PodPlacementWebhook || o.name == PodMutatingWebhook
  }

  predicate OperandKept(c: Cluster, d: Cluster) {
    forall o | o in c.objs && IsOperand(o) :: o in d.objs && d.objs[o] == c.objs[o]
  }

  lemma EnvKeepsWaiting(s: State, e: EnvEvent)
    requires Waiting(s) && !e.DeletePpc?
    ensures Waiting(s.(cluster := EnvStep(s.cluster, e)))
  {
    EnvKeepsFinalizer(s.cluster, e, NoPpc);
  }

  lemma IdleKeepsWaiting(s: State, w: Work)
    requires Inv(s) && Waiting(s) && s.pc.Idle?
    ensures Waiting(SetupStep(s, w)) && SetupStep(s, w).cluster == s.cluster
  {
  }

  lemma EnoexecKeepsWaiting(s: State, w: Work)
    requires Inv(s) && Waiting(s) && InEnoexec(s.pc)
    ensures Waiting(EnoexecStep(s, w))
  {
    assert NoPpc in s.local.finalizers - {ExecError};
  }

  lemma EnoexecKeepsOperand(s: State, w: Work)
    requires Inv(s) && Waiting(s) && InEnoexec(s.pc) && OnlyEnoexec(s.pc)
    ensures OperandKept(s.cluster, EnoexecStep(s, w).cluster) && OnlyEnoexec(EnoexecStep(s, w).pc)
  {
    DeletionListsApart();
  }

  /** The exec-error teardown only deletes exec-error objects. */
  predicate OnlyEnoexec(pc: Pc) {
    (pc.DeleteDaemon? || pc.DeleteHandler?) ==> forall o | o in pc.todo :: !IsOperand(o)
  }

  lemma DeletionListsApart()
    ensures forall o | o in DaemonObjects :: !IsOperand(o)
    ensures forall o | o in HandlerObjects :: !IsOperand(o)
  {
    assert forall i | 0 <= i < |DaemonObjects| :: DaemonObjects[i].name == EnoexecDaemon;
    assert forall i | 0 <= i < |HandlerObjects| :: HandlerObjects[i].name == EnoexecHandler || HandlerObjects[i].name == EnoexecDaemon;
  }

  lemma CheckKeepsWaiting(s: State, w: Work)
    requires Inv(s) && Waiting(s) && InDeletion(s.pc)
    ensures Waiting(DeletionStep(s, w)) && OperandKept(s.cluster, DeletionStep(s, w).cluster)
  {
  }

  lemma StepKeepsWaiting(s: State, e: Event)
    requires Inv(s) && Waiting(s) && OnlyEnoexec(s.pc) && !(e.Env? && e.env.DeletePpc?)
    ensures Waiting(Step(s, e)) && OnlyEnoexec(Step(s, e).pc)
    ensures !e.Env? ==> OperandKept(s.cluster, Step(s, e).cluster)
  {
    DeletionListsApart();
    if e.Env? {
      EnvKeepsWaiting(s, e.env);
    } else if e.Op? {
      if s.pc.Idle? {
        IdleKeepsWaiting(s, e.work);
      } else if InEnoexec(s.pc) {
        EnoexecKeepsWaiting(s, e.work);
        EnoexecKeepsOperand(s, e.work);
      } else {
        CheckKeepsWaiting(s, e.work);
      }
    }
  }

  lemma WaitingAfter(events: seq<Event>, e: Event)
    requires Waiting(Run(Init(), events)) && OnlyEnoexec(Run(Init(), events).pc) && !(e.Env? && e.env.DeletePpc?)
    ensures Waiting(Run(Init(), events + [e])) && OnlyEnoexec(Run(Init(), events + [e]).pc)
    ensures !e.Env? ==> OperandKept(Run(Init(), events).cluster, Run(Init(), events + [e]).cluster)
  {
    ReachableInv(events);
    assert (events + [e])[..|events|] == events;
    StepKeepsWaiting(Run(Init(), events), e);
  }

  /** From any reachable point between two passes at which the configuration is being deleted and
      PodPlacementConfigs are left: in every continuation in which none of them is deleted the
      configuration stays stored with its finalizer, and no step of the operator touches an object of
      the webhook or of the pod controller. */
  lemma {:induction false} DeletionWaitsForPpcs(events: seq<Event>, later: seq<Event>)
    requires Waiting(Run(Init(), events)) && Run(Init(), events).pc.Idle?
    requires forall i | 0 <= i < |later| :: !(later[i].Env? && later[i].env.DeletePpc?)
    ensures Waiting(Run(Init(), events + later)) && OnlyEnoexec(Run(Init(), events + later).pc)
    ensures later != [] && !later[|later| - 1].Env? ==>
              OperandKept(Run(Init(), events + later[..|later| - 1]).cluster, Run(Init(), events + later).cluster)
    decreases later
  {
    if later == [] {
      assert events + later == events;
    } else {
      var front, last := later[..|later| - 1], later[|later| - 1];
      DeletionWaitsForPpcs(events, front);
      assert events + later == (events + front) + [last];
      WaitingAfter(events + front, last);
    }
  }

  // ---------- Waiting for the webhook ----------

  /** No webhook configuration, and none about to be applied. */
  predicate NoWebhook(s: State) {
    && WebhookConfig !in s.cluster.objs
    && (s.pc.CheckObjects? ==> !s.pc.canDeployWebhook)
    && (s.pc.Applying? ==> WebhookConfig !in s.pc.todo)
  }

  lemma NotAppliedUnready(monitor: bool, includeDaemon: bool)
    ensures WebhookConfig !in ToApply(monitor, false, includeDaemon)
  {
    assert forall i | 0 <= i < |PlacementApplied| :: PlacementApplied[i].name != PodMutatingWebhook;
    assert forall i | 0 <= i < |EnoexecApplied| :: EnoexecApplied[i].name != PodMutatingWebhook;
    assert WebhookConfig !in PlacementApplied && WebhookConfig !in EnoexecApplied && WebhookConfig !in [Daemon];
  }

  lemma StepKeepsNoWebhook(s: State, e: Event)
    requires NoWebhook(s) && (e.Op? ==> !e.work.canDeployWebhook)
    ensures NoWebhook(Step(s, e))
  {
    if e.Op? && s.pc.CheckObjects? {
      NotAppliedUnready(s.local.monitor, e.work.includeDaemon);
    }
  }

  /** A pass that finds the webhook not ready to be called takes its configuration away, so that no pod
      creation waits for it; and nothing brings it back before a pass finds it ready. */
  lemma {:induction false} NoWebhookUntilReady(s: State, w: Work, later: seq<Event>)
    requires s.pc.BeginApply? && w.ok && !w.canDeployWebhook
    requires WebhookConfig in s.cluster.objs ==> s.cluster.objs[WebhookConfig].finalizers == {}
    requires forall i | 0 <= i < |later| :: later[i].Op? ==> !later[i].work.canDeployWebhook
    ensures NoWebhook(Run(WorkStep(s, w), later))
    decreases later
  {
    if later != [] {
      var front := later[..|later| - 1];
      NoWebhookUntilReady(s, w, front);
      StepKeepsNoWebhook(Run(WorkStep(s, w), front), later[|later| - 1]);
    }
  }

  // ---------- Waiting for the daemon's service account ----------

  predicate NoDaemon(s: State) {
    Daemon !in s.cluster.objs && (s.pc.Applying? ==> Daemon !in s.pc.todo)
  }

  lemma NotAppliedEarly(monitor: bool, canDeployWebhook: bool)
    ensures Daemon !in ToApply(monitor, canDeployWebhook, false)
  {
    assert forall i | 0 <= i < |PlacementApplied| :: PlacementApplied[i].kind != DaemonSet;
    assert forall i | 0 <= i < |EnoexecApplied| :: EnoexecApplied[i].kind != DaemonSet;
    assert Daemon !in PlacementApplied && Daemon !in EnoexecApplied && Daemon !in [WebhookConfig];
  }

  lemma StepKeepsNoDaemon(s: State, e: Event)
    requires NoDaemon(s) && (e.Op? ==> !e.work.includeDaemon)
    ensures NoDaemon(Step(s, e))
  {
    if e.Op? && s.pc.CheckObjects? {
      NotAppliedEarly(s.local.monitor, s.pc.canDeployWebhook);
    }
  }

  /** The DaemonSet is not created before a pass finds its service account ready. */
  lemma {:induction false} NoDaemonUntilReady(events: seq<Event>)
    requires forall i | 0 <= i < |events| :: events[i].Op? ==> !events[i].work.includeDaemon
    ensures NoDaemon(Run(Init(), events))
    decreases events
  {
    if events != [] {
      var front := events[..|events| - 1];
      NoDaemonUntilReady(front);
      StepKeepsNoDaemon(Run(Init(), front), events[|events| - 1]);
    }
  }
}
