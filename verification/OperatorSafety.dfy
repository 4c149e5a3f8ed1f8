/**
 Safety of the lifecycle protocol in every interleaving: the inductive invariant behind it, what
 holds whenever a finalizer is released, and that no deleting configuration is stranded.
 */
module OperatorSafety {
  import opened Operator

  // ---------- The invariant ----------

  predicate Holds(c: Cluster, f: Finalizer) {
    c.cppc.Some? && f in c.cppc.value.finalizers
  }

  /** The other operator finalizers are only ever held together with the pod-placement one. */
  predicate Owned(finalizers: set<Finalizer>) {
    ExecError in finalizers || NoPpc in finalizers ==> PodPlacement in finalizers
  }

  /** Nothing gates pods and no pod is gated. */
  predicate Quiet(c: Cluster) {
    WebhookService !in c.objs && c.gated == {}
  }

  /** None of the daemon's RBAC objects is left. */
  predicate NoDaemonRbac(c: Cluster) {
    forall o | o in c.objs :: !IsDaemonRbac(o)
  }

  /** The daemon's RBAC objects and DaemonSet are gone and no event is left to be processed. */
  predicate Torn(c: Cluster) {
    NoDaemonRbac(c) && Daemon !in c.objs && NonErrored(c.events) == {}
  }

  predicate ClusterInv(c: Cluster) {
    && (c.cppc.Some? ==> c.cppc.value.version < c.clock && Owned(c.cppc.value.finalizers))
    && (!Holds(c, PodPlacement) ==> Quiet(c))
    && (!Holds(c, ExecError) ==> Torn(c))
    && (forall o | o in c.objs && IsDaemonRbac(o) :: c.objs[o].finalizers == {})
  }

  /** The pass works on a copy that is either the stored revision or outdated; outdated or not, the
      operator finalizers in it are still on the stored object, because only the worker drops them. */
  predicate LocalInv(s: State) {
    && s.local.version < s.cluster.clock
    && (forall f | f in s.local.finalizers && f != Foreign :: Holds(s.cluster, f))
    && Owned(s.local.finalizers)
    && (s.cluster.cppc.Some? && s.cluster.cppc.value.version == s.local.version ==> s.cluster.cppc.value == s.local)
  }

  predicate SetupInv(s: State) {
    && PodPlacement in s.local.finalizers && !s.local.deleting
    && (s.pc.GetHandler? || s.pc.GuardHandler? ==> s.local.monitor)
    && (s.local.monitor && !s.pc.ListPpcs? && !s.pc.SetNoPpc? && !s.pc.AddExecError? ==> ExecError in s.local.finalizers)
    && (s.pc.Applying? ==>
          forall o | o in s.pc.todo && (IsDaemonRbac(o) || o == Daemon) :: ExecError in s.local.finalizers)
  }

  predicate EnoexecInv(s: State)
    requires InEnoexec(s.pc)
  {
    && PodPlacement in s.local.finalizers && ExecError in s.local.finalizers
    && (if s.pc.cause == Deletion then s.local.deleting else !s.local.deleting && !s.local.monitor)
    && match s.pc
       case DeleteDaemon(todo, failed, _) => failed || forall o | o in s.cluster.objs && IsDaemonRbac(o) :: o in todo
       case CheckDaemon(_) => NoDaemonRbac(s.cluster)
       case ListEvents(_) => NoDaemonRbac(s.cluster) && Daemon !in s.cluster.objs
       case DeleteErrored(_, blocked, _) =>
         NoDaemonRbac(s.cluster) && Daemon !in s.cluster.objs && (blocked || NonErrored(s.cluster.events) == {})
       case _ => Torn(s.cluster)
  }

  predicate DeletionInv(s: State) {
    && s.local.deleting && PodPlacement in s.local.finalizers && ExecError !in s.local.finalizers
    && (!s.pc.ReportStatus? && !s.pc.CheckPpcs? && !s.pc.ReleaseNoPpc? ==> NoPpc !in s.local.finalizers)
    && (s.pc.CheckPods? ==> WebhookService !in s.cluster.objs)
    && (s.pc.FetchController? || s.pc.ReleaseController? || s.pc.ReleasePodPlacement? ==> Quiet(s.cluster))
  }

  predicate PcInv(s: State) {
    if s.pc.Idle? || s.pc.DeleteController? then true
    else if s.pc.AddPodPlacement? then !s.local.deleting
    else if InEnoexec(s.pc) then EnoexecInv(s)
    else if InDeletion(s.pc) then DeletionInv(s)
    else SetupInv(s)
  }

  predicate Inv(s: State) {
    && s.cluster.clock > 0
    && ClusterInv(s.cluster)
    && (!s.pc.Idle? ==> LocalInv(s))
    && PcInv(s)
  }

  // ---------- The environment ----------

  lemma StoredHolds(c: Cluster, v: Cppc, f: Finalizer)
    requires f in v.finalizers
    ensures Holds(Stored(c, v), f)
  {
  }

  /** What the environment cannot do: take an operator finalizer off the configuration, create
      objects, gate pods without the Service, or create events without the Role. */
  lemma EnvIsTame(c: Cluster, e: EnvEvent)
    ensures var d := EnvStep(c, e);
            && (forall o | o in d.objs :: o in c.objs)
            && (WebhookService !in c.objs ==> d.gated <= c.gated)
            && (DaemonRole !in c.objs ==> NonErrored(d.events) <= NonErrored(c.events))
            && (forall o | o in d.objs && IsDaemonRbac(o) :: d.objs[o].finalizers <= c.objs[o].finalizers)
            && d.clock >= c.clock
  {
  }

  lemma EnvKeepsFinalizer(c: Cluster, e: EnvEvent, f: Finalizer)
    requires Holds(c, f) && f != Foreign
    ensures Holds(EnvStep(c, e), f)
  {
    var v := c.cppc.value;
    if e.DeleteCppc? {
      StoredHolds(c, v.(deleting := true), f);
    } else if e.RemoveForeign? {
      StoredHolds(c, v.(finalizers := v.finalizers - {Foreign}), f);
    }
  }

  lemma EnvKeepsCppc(c: Cluster, e: EnvEvent)
    requires c.cppc.Some? ==> c.cppc.value.version < c.clock && Owned(c.cppc.value.finalizers)
    ensures var d := EnvStep(c, e);
            d.cppc.Some? ==> d.cppc.value.version < d.clock && Owned(d.cppc.value.finalizers)
  {
  }

  lemma EnvKeepsCluster(c: Cluster, e: EnvEvent)
    requires ClusterInv(c)
    ensures ClusterInv(EnvStep(c, e))
  {
    EnvIsTame(c, e);
    EnvKeepsCppc(c, e);
    if Holds(c, PodPlacement) {
      EnvKeepsFinalizer(c, e, PodPlacement);
    }
    if Holds(c, ExecError) {
      EnvKeepsFinalizer(c, e, ExecError);
    }
  }

  lemma EnvKeepsLocal(s: State, e: EnvEvent)
    requires ClusterInv(s.cluster) && LocalInv(s)
    ensures LocalInv(s.(cluster := EnvStep(s.cluster, e)))
  {
    forall f | f in s.local.finalizers && f != Foreign ensures Holds(EnvStep(s.cluster, e), f) {
      EnvKeepsFinalizer(s.cluster, e, f);
    }
  }

  lemma EnvKeepsPc(s: State, e: EnvEvent)
    requires PcInv(s)
    ensures PcInv(s.(cluster := EnvStep(s.cluster, e)))
  {
    EnvIsTame(s.cluster, e);
  }

  // ---------- The operator ----------

  /** An update leaves the copy in step with the stored object. */
  lemma UpdateKeepsLocal(s: State, finalizers: set<Finalizer>)
    requires Owned(finalizers)
    ensures LocalInv(Updated(s, finalizers))
  {
    var v := s.local.(finalizers := finalizers);
    forall f | f in finalizers ensures Holds(Updated(s, finalizers).cluster, f) {
      StoredHolds(s.cluster, v, f);
    }
  }

  /** An update keeps the cluster invariant if each finalizer it drops may be dropped. */
  lemma UpdateKeepsCluster(s: State, finalizers: set<Finalizer>)
    requires ClusterInv(s.cluster) && Owned(finalizers)
    requires PodPlacement !in finalizers ==> Quiet(s.cluster)
    requires ExecError !in finalizers ==> Torn(s.cluster)
    ensures ClusterInv(Updated(s, finalizers).cluster)
  {
    var v := s.local.(finalizers := finalizers);
    if PodPlacement in finalizers {
      StoredHolds(s.cluster, v, PodPlacement);
    }
    if ExecError in finalizers {
      StoredHolds(s.cluster, v, ExecError);
    }
  }

  /** A copy that can be updated is the stored revision, so what it lacks is lacking. */
  lemma CopyIsCurrent(s: State)
    requires LocalInv(s) && CanUpdate(s, true) && ClusterInv(s.cluster)
    ensures ExecError !in s.local.finalizers ==> Torn(s.cluster)
    ensures PodPlacement !in s.local.finalizers ==> Quiet(s.cluster)
  {
  }

  /** Calls that only remove objects keep everything about the cluster. */
  lemma FewerObjects(s: State, objs: map<Obj, ObjState>, pc: Pc)
    requires ClusterInv(s.cluster) && LocalInv(s)
    requires forall o | o in objs :: o in s.cluster.objs && objs[o].finalizers <= s.cluster.objs[o].finalizers
    ensures ClusterInv(WithObjs(s, objs, pc).cluster) && LocalInv(WithObjs(s, objs, pc))
  {
  }

  lemma DeletedIsFewer(objs: map<Obj, ObjState>, o: Obj)
    ensures forall x | x in Deleted(objs, o) :: x in objs && Deleted(objs, o)[x].finalizers == objs[x].finalizers
    ensures o in objs && objs[o].finalizers == {} ==> o !in Deleted(objs, o)
  {
  }

  lemma ReleasedIsFewer(objs: map<Obj, ObjState>, o: Obj, f: Finalizer)
    ensures forall x | x in Released(objs, o, f) :: x in objs && Released(objs, o, f)[x].finalizers <= objs[x].finalizers
  {
  }

  lemma TailMembers(todo: seq<Obj>)
    requires todo != []
    ensures forall o :: o in todo <==> o == todo[0] || o in todo[1..]
  {
  }

  /** Every one of them is on the list that `handleEnoexecDelete` deletes. */
  lemma DaemonRbacListed()
    ensures forall o | IsDaemonRbac(o) :: o in DaemonObjects
  {
    assert DaemonObjects[0] == Obj(ClusterRole, EnoexecDaemon) && DaemonObjects[1] == Obj(ClusterRoleBinding, EnoexecDaemon);
    assert DaemonObjects[2] == DaemonRole && DaemonObjects[3] == DaemonRoleBinding;
  }

  lemma ApplyListIsSafe(monitor: bool, canDeployWebhook: bool, includeDaemon: bool)
    ensures !monitor ==> forall o | o in ToApply(monitor, canDeployWebhook, includeDaemon) :: !IsDaemonRbac(o) && o != Daemon
  {
    assert forall i | 0 <= i < |PlacementApplied| :: PlacementApplied[i].name != EnoexecDaemon;
  }

  lemma ApplyKeeps(s: State, w: Work)
    requires Inv(s) && s.pc.Applying?
    ensures Inv(SetupStep(s, w))
  {
    if s.pc.todo == [] {
      if CanUpdate(s, w.ok) {
        CopyIsCurrent(s);
        UpdateKeepsCluster(s, s.local.finalizers);
      }
    } else {
      var o := s.pc.todo[0];
      assert o in s.pc.todo;
      assert forall x | x in s.pc.todo[1..] :: x in s.pc.todo;
      assert Holds(s.cluster, PodPlacement);
      if IsDaemonRbac(o) || o == Daemon {
        assert Holds(s.cluster, ExecError);
      }
    }
  }

  lemma IdleKeeps(s: State, w: Work)
    requires Inv(s) && s.pc.Idle?
    ensures Inv(SetupStep(s, w))
  {
    var t := SetupStep(s, w);
    if !t.pc.Idle? {
      assert t.local == s.cluster.cppc.value;
      assert LocalInv(t);
      if t.pc.DeleteDaemon? {
        DaemonRbacListed();
      }
    }
  }

  lemma SetupUpdateKeeps(s: State, w: Work)
    requires Inv(s) && (s.pc.AddPodPlacement? || s.pc.SetNoPpc? || s.pc.AddExecError?)
    ensures Inv(SetupStep(s, w))
  {
    if CanUpdate(s, w.ok) {
      CopyIsCurrent(s);
      match s.pc {
        case AddPodPlacement => UpdateKeepsCluster(s, s.local.finalizers + {PodPlacement});
        case SetNoPpc(add) =>
          UpdateKeepsCluster(s, if add then s.local.finalizers + {NoPpc} else s.local.finalizers - {NoPpc});
        case AddExecError => UpdateKeepsCluster(s, s.local.finalizers + {ExecError});
      }
    }
  }

  lemma ListPpcsKeeps(s: State, w: Work)
    requires Inv(s) && s.pc.ListPpcs?
    ensures Inv(SetupStep(s, w))
  {
    var t := SetupStep(s, w);
    assert t.cluster == s.cluster && t.local == s.local;
  }

  lemma SetupReadKeeps(s: State, w: Work)
    requires Inv(s) && (s.pc.GetHandler? || s.pc.GetController?)
    ensures Inv(SetupStep(s, w))
  {
    var t := SetupStep(s, w);
    assert t.cluster == s.cluster && t.local == s.local;
  }

  lemma CheckObjectsKeeps(s: State, w: Work)
    requires Inv(s) && s.pc.CheckObjects?
    ensures Inv(SetupStep(s, w))
  {
    ApplyListIsSafe(s.local.monitor, s.pc.canDeployWebhook, w.includeDaemon);
    var t := SetupStep(s, w);
    assert t.cluster == s.cluster && t.local == s.local;
  }

  lemma GatherStatusKeeps(s: State, w: Work)
    requires Inv(s) && s.pc.GatherStatus?
    ensures Inv(SetupStep(s, w))
  {
    DaemonRbacListed();
    var t := SetupStep(s, w);
    assert t.cluster == s.cluster && t.local == s.local;
  }

  lemma GuardHandlerKeeps(s: State, w: Work)
    requires Inv(s) && s.pc.GuardHandler?
    ensures Inv(SetupStep(s, w))
  {
    assert Holds(s.cluster, PodPlacement) && Holds(s.cluster, ExecError);
  }

  lemma ReleaseTerminatingKeeps(s: State, w: Work)
    requires Inv(s) && s.pc.ReleaseTerminating?
    ensures Inv(SetupStep(s, w))
  {
    var t := SetupStep(s, w);
    ReleasedIsFewer(s.cluster.objs, ControllerDeployment, PodPlacement);
    FewerObjects(s, t.cluster.objs, t.pc);
  }

  lemma BeginApplyKeeps(s: State, w: Work)
    requires Inv(s) && s.pc.BeginApply?
    ensures Inv(SetupStep(s, w))
  {
    var t := SetupStep(s, w);
    DeletedIsFewer(s.cluster.objs, WebhookConfig);
    FewerObjects(s, t.cluster.objs, t.pc);
  }

  lemma DeleteDaemonKeeps(s: State, w: Work)
    requires Inv(s) && s.pc.DeleteDaemon?
    ensures Inv(EnoexecStep(s, w))
  {
    var todo := s.pc.todo;
    if todo != [] {
      var t := EnoexecStep(s, w);
      DeletedIsFewer(s.cluster.objs, todo[0]);
      FewerObjects(s, t.cluster.objs, t.pc);
      TailMembers(todo);
    }
  }

  lemma EnoexecReadKeeps(s: State, w: Work)
    requires Inv(s) && (s.pc.CheckDaemon? || s.pc.ListEvents? || s.pc.DeleteErrored? || s.pc.FetchHandler?)
    ensures Inv(EnoexecStep(s, w))
  {
    assert NonErrored(s.cluster.events - {w.pick}) <= NonErrored(s.cluster.events);
  }

  lemma EnoexecWriteKeeps(s: State, w: Work)
    requires Inv(s) && (s.pc.ReleaseHandler? || s.pc.DeleteHandler?)
    ensures Inv(EnoexecStep(s, w))
  {
    var objs, t := s.cluster.objs, EnoexecStep(s, w);
    ReleasedIsFewer(objs, HandlerDeployment, ExecError);
    if s.pc.DeleteHandler? && s.pc.todo != [] {
      DeletedIsFewer(objs, s.pc.todo[0]);
    }
    FewerObjects(s, t.cluster.objs, t.pc);
  }

  lemma ReleaseExecErrorKeeps(s: State, w: Work)
    requires Inv(s) && s.pc.ReleaseExecError?
    ensures Inv(EnoexecStep(s, w))
  {
    if CanUpdate(s, w.ok) {
      UpdateKeepsLocal(s, s.local.finalizers - {ExecError});
      UpdateKeepsCluster(s, s.local.finalizers - {ExecError});
    }
  }

  lemma DeletionReadKeeps(s: State, w: Work)
    requires Inv(s) && (s.pc.CheckPpcs? || s.pc.CheckService? || s.pc.CheckPods? || s.pc.FetchController?)
    ensures Inv(DeletionStep(s, w))
  {
  }

  lemma DeletionUpdateKeeps(s: State, w: Work)
    requires Inv(s) && (s.pc.ReportStatus? || s.pc.ReleaseNoPpc? || s.pc.ReleasePodPlacement?)
    ensures Inv(DeletionStep(s, w))
  {
    if CanUpdate(s, w.ok) {
      CopyIsCurrent(s);
      var left := if s.pc.ReleaseNoPpc? then s.local.finalizers - {NoPpc}
                  else if s.pc.ReleasePodPlacement? then s.local.finalizers - {PodPlacement}
                  else s.local.finalizers;
      UpdateKeepsLocal(s, left);
      UpdateKeepsCluster(s, left);
    }
  }

  lemma DeletionSweepKeeps(s: State, w: Work)
    requires Inv(s) && (s.pc.DeleteWebhook? || s.pc.DeleteController?)
    ensures Inv(DeletionStep(s, w))
  {
    var t := DeletionStep(s, w);
    if s.pc.todo != [] {
      DeletedIsFewer(s.cluster.objs, s.pc.todo[0]);
      FewerObjects(s, t.cluster.objs, t.pc);
    }
  }

  lemma ReleaseControllerKeeps(s: State, w: Work)
    requires Inv(s) && s.pc.ReleaseController?
    ensures Inv(DeletionStep(s, w))
  {
    var t := DeletionStep(s, w);
    ReleasedIsFewer(s.cluster.objs, ControllerDeployment, PodPlacement);
    FewerObjects(s, t.cluster.objs, t.pc);
  }

  lemma WorkKeepsInv(s: State, w: Work)
    requires Inv(s)
    ensures Inv(WorkStep(s, w))
  {
    if InEnoexec(s.pc) {
      EnoexecKeeps(s, w);
    } else if InDeletion(s.pc) {
      DeletionKeeps(s, w);
    } else {
      SetupKeeps(s, w);
    }
  }

  lemma SetupKeeps(s: State, w: Work)
    requires Inv(s) && !InEnoexec(s.pc) && !InDeletion(s.pc)
    ensures Inv(SetupStep(s, w))
  {
    if s.pc.Idle? {
      IdleKeeps(s, w);
    } else if s.pc.AddPodPlacement? || s.pc.SetNoPpc? || s.pc.AddExecError? {
      SetupUpdateKeeps(s, w);
    } else if s.pc.Applying? {
      ApplyKeeps(s, w);
    } else if s.pc.ReleaseTerminating? {
      ReleaseTerminatingKeeps(s, w);
    } else if s.pc.BeginApply? {
      BeginApplyKeeps(s, w);
    } else if s.pc.ListPpcs? {
      ListPpcsKeeps(s, w);
    } else if s.pc.GuardHandler? {
      GuardHandlerKeeps(s, w);
    } else if s.pc.GatherStatus? {
      GatherStatusKeeps(s, w);
    } else if s.pc.CheckObjects? {
      CheckObjectsKeeps(s, w);
    } else {
      SetupReadKeeps(s, w);
    }
  }

  lemma EnoexecKeeps(s: State, w: Work)
    requires Inv(s) && InEnoexec(s.pc)
    ensures Inv(EnoexecStep(s, w))
  {
    if s.pc.DeleteDaemon? {
      DeleteDaemonKeeps(s, w);
    } else if s.pc.ReleaseExecError? {
      ReleaseExecErrorKeeps(s, w);
    } else if s.pc.ReleaseHandler? || s.pc.DeleteHandler? {
      EnoexecWriteKeeps(s, w);
    } else {
      EnoexecReadKeeps(s, w);
    }
  }

  lemma DeletionKeeps(s: State, w: Work)
    requires Inv(s) && InDeletion(s.pc)
    ensures Inv(DeletionStep(s, w))
  {
    if s.pc.ReportStatus? || s.pc.ReleaseNoPpc? || s.pc.ReleasePodPlacement? {
      DeletionUpdateKeeps(s, w);
    } else if s.pc.ReleaseController? {
      ReleaseControllerKeeps(s, w);
    } else if s.pc.DeleteWebhook? || s.pc.DeleteController? {
      DeletionSweepKeeps(s, w);
    } else {
      DeletionReadKeeps(s, w);
    }
  }

  lemma StepKeepsInv(s: State, e: Event)
    requires Inv(s)
    ensures Inv(Step(s, e))
  {
    match e {
      case Env(env) =>
        EnvIsTame(s.cluster, env);
        EnvKeepsCluster(s.cluster, env);
        EnvKeepsPc(s, env);
        if !s.pc.Idle? {
          EnvKeepsLocal(s, env);
        }
      case Op(work) =>
        WorkKeepsInv(s, work);
      case Crash =>
    }
  }

  /** The invariant holds in every reachable state. */
  lemma {:induction false} ReachableInv(events: seq<Event>)
    ensures Inv(Run(Init(), events))
    decreases events
  {
    if events == [] {
      assert NonErrored(map[]) == {};
    } else {
      ReachableInv(events[..|events| - 1]);
      StepKeepsInv(Run(Init(), events[..|events| - 1]), events[|events| - 1]);
    }
  }

  // ---------- What the invariant buys ----------

  /** In every interleaving: while the configuration does not hold the pod-placement finalizer (not
      yet, no longer, or not at all) no pod is gated and none can be. */
  lemma NoGateWithoutFinalizer(events: seq<Event>, e: EnvEvent)
    ensures var c := Run(Init(), events).cluster;
            !Holds(c, PodPlacement) ==> c.gated == {} && EnvStep(c, e).gated == {}
  {
    ReachableInv(events);
    var c := Run(Init(), events).cluster;
    if !Holds(c, PodPlacement) {
      EnvIsTame(c, e);
    }
  }

  /** Only the last step of `handleDelete` takes the pod-placement finalizer off the configuration. */
  lemma OnlyReleaseDrops(s: State, e: Event)
    requires Inv(s)
    requires Holds(s.cluster, PodPlacement) && !Holds(Step(s, e).cluster, PodPlacement)
    ensures e.Op? && s.pc.ReleasePodPlacement?
  {
    if e.Env? {
      EnvKeepsFinalizer(s.cluster, e.env, PodPlacement);
    } else if e.Op? && CanUpdate(s, e.work.ok) && !s.pc.Idle? && !s.pc.ReleasePodPlacement? {
      WorkKeepsPodPlacement(s, e.work);
    }
  }

  lemma WorkKeepsPodPlacement(s: State, w: Work)
    requires Inv(s) && CanUpdate(s, w.ok) && !s.pc.Idle? && !s.pc.ReleasePodPlacement?
    requires Holds(s.cluster, PodPlacement)
    ensures Holds(WorkStep(s, w).cluster, PodPlacement)
  {
    assert s.local == s.cluster.cppc.value;
    var t := WorkStep(s, w);
    if t.cluster.cppc != s.cluster.cppc {
      assert PodPlacement in t.local.finalizers;
      StoredHolds(s.cluster, t.local, PodPlacement);
    }
  }

  /** When `handleDelete` drops the pod-placement finalizer, from the controller Deployment or from
      the configuration, no pod holds the gate and the webhook Service is gone. */
  lemma ReleaseIsSafe(events: seq<Event>, e: Event)
    ensures var s := Run(Init(), events);
            var t := Step(s, e);
            (e.Op? && s.pc.ReleaseController?) || (Holds(s.cluster, PodPlacement) && !Holds(t.cluster, PodPlacement)) ==>
              Quiet(s.cluster) && Quiet(t.cluster)
  {
    var s := Run(Init(), events);
    ReachableInv(events);
    StepKeepsInv(s, e);
    if Holds(s.cluster, PodPlacement) && !Holds(Step(s, e).cluster, PodPlacement) {
      OnlyReleaseDrops(s, e);
    }
    ReleasedIsFewer(s.cluster.objs, ControllerDeployment, PodPlacement);
  }

  lemma GoneStaysGone(s: State, e: Event)
    requires s.cluster.cppc.None? && e != Env(CreateCppc(true)) && e != Env(CreateCppc(false))
    ensures Step(s, e).cluster.cppc.None?
  {
  }

  lemma GoneAfter(events: seq<Event>, e: Event)
    requires Run(Init(), events).cluster.cppc.None? && e != Env(CreateCppc(true)) && e != Env(CreateCppc(false))
    ensures Run(Init(), events + [e]).cluster.cppc.None?
  {
    assert (events + [e])[..|events|] == events;
    GoneStaysGone(Run(Init(), events), e);
  }

  lemma {:induction false} StaysGone(events: seq<Event>, later: seq<Event>)
    requires Run(Init(), events).cluster.cppc.None?
    requires forall i | 0 <= i < |later| :: later[i] != Env(CreateCppc(true)) && later[i] != Env(CreateCppc(false))
    ensures Run(Init(), events + later).cluster.cppc.None?
    decreases later
  {
    if later == [] {
      assert events + later == events;
    } else {
      var front, last := later[..|later| - 1], later[|later| - 1];
      StaysGone(events, front);
      assert events + later == (events + front) + [last];
      GoneAfter(events + front, last);
    }
  }

  /** After the configuration is gone no pod is gated until somebody creates a new one. */
  lemma NoGateUntilNewCppc(events: seq<Event>, later: seq<Event>)
    requires Run(Init(), events).cluster.cppc.None?
    requires forall i | 0 <= i < |later| :: later[i] != Env(CreateCppc(true)) && later[i] != Env(CreateCppc(false))
    ensures Run(Init(), events + later).cluster.cppc.None?
    ensures Run(Init(), events + later).cluster.gated == {}
  {
    StaysGone(events, later);
    ReachableInv(events + later);
  }

  /** The early return for a deleting configuration without the pod-placement finalizer never leaves
      another operator finalizer behind. */
  lemma NeverStranded(events: seq<Event>)
    ensures var c := Run(Init(), events).cluster;
            && (c.cppc.Some? ==> Owned(c.cppc.value.finalizers))
            && (c.cppc.Some? && c.cppc.value.deleting && PodPlacement !in c.cppc.value.finalizers ==>
                  c.cppc.value.finalizers <= {Foreign})
  {
    ReachableInv(events);
    var c := Run(Init(), events).cluster;
    if c.cppc.Some? && PodPlacement !in c.cppc.value.finalizers {
      forall f | f in c.cppc.value.finalizers ensures f == Foreign {
      }
    }
  }

  predicate HandlerGuarded(c: Cluster) {
    HandlerDeployment in c.objs && ExecError in c.objs[HandlerDeployment].finalizers
  }

  lemma DeletedKeepsGuard(objs: map<Obj, ObjState>, o: Obj)
    requires HandlerDeployment in objs && ExecError in objs[HandlerDeployment].finalizers
    ensures HandlerDeployment in Deleted(objs, o) && ExecError in Deleted(objs, o)[HandlerDeployment].finalizers
  {
  }

  lemma ReleasedKeepsGuard(objs: map<Obj, ObjState>, o: Obj, f: Finalizer)
    requires HandlerDeployment in objs && ExecError in objs[HandlerDeployment].finalizers
    requires !(o == HandlerDeployment && f == ExecError)
    ensures HandlerDeployment in Released(objs, o, f) && ExecError in Released(objs, o, f)[HandlerDeployment].finalizers
  {
    if o == HandlerDeployment {
      assert ExecError in objs[o].finalizers - {f};
    }
  }

  lemma EnvKeepsGuard(c: Cluster, e: EnvEvent)
    requires HandlerGuarded(c)
    ensures HandlerGuarded(EnvStep(c, e))
  {
    if e.DeleteObject? {
      DeletedKeepsGuard(c.objs, e.obj);
    } else if e.RemoveForeignFrom? {
      ReleasedKeepsGuard(c.objs, e.obj, Foreign);
    }
  }

  lemma SetupKeepsGuard(s: State, w: Work)
    requires HandlerGuarded(s.cluster)
    ensures HandlerGuarded(SetupStep(s, w).cluster)
  {
    DeletedKeepsGuard(s.cluster.objs, WebhookConfig);
    ReleasedKeepsGuard(s.cluster.objs, ControllerDeployment, PodPlacement);
  }

  lemma EnoexecKeepsGuard(s: State, w: Work)
    requires HandlerGuarded(s.cluster) && !s.pc.ReleaseHandler?
    ensures HandlerGuarded(EnoexecStep(s, w).cluster)
  {
    if (s.pc.DeleteDaemon? || s.pc.DeleteHandler?) && s.pc.todo != [] {
      DeletedKeepsGuard(s.cluster.objs, s.pc.todo[0]);
    }
  }

  lemma DeletionKeepsGuard(s: State, w: Work)
    requires HandlerGuarded(s.cluster)
    ensures HandlerGuarded(DeletionStep(s, w).cluster)
  {
    ReleasedKeepsGuard(s.cluster.objs, ControllerDeployment, PodPlacement);
    if (s.pc.DeleteWebhook? || s.pc.DeleteController?) && s.pc.todo != [] {
      DeletedKeepsGuard(s.cluster.objs, s.pc.todo[0]);
    }
  }

  lemma OnlyReleaseUnguards(s: State, e: Event)
    requires HandlerGuarded(s.cluster) && !HandlerGuarded(Step(s, e).cluster)
    ensures e.Op? && s.pc.ReleaseHandler?
  {
    if e.Env? {
      EnvKeepsGuard(s.cluster, e.env);
    } else if e.Op? && !s.pc.ReleaseHandler? {
      SetupKeepsGuard(s, e.work);
      EnoexecKeepsGuard(s, e.work);
      DeletionKeepsGuard(s, e.work);
    }
  }

  /** Through plugin disabling and deletion alike: the exec-error finalizer leaves the handler
      Deployment, and the configuration, only when the daemon's RBAC objects and DaemonSet are gone
      and every event is processed; and without the finalizer no event can appear. */
  lemma ExecErrorReleaseIsSafe(events: seq<Event>, e: Event)
    ensures var s := Run(Init(), events);
            var t := Step(s, e);
            && (HandlerGuarded(s.cluster) && !HandlerGuarded(t.cluster) ==> Torn(s.cluster) && Torn(t.cluster))
            && (!Holds(t.cluster, ExecError) ==> Torn(t.cluster))
            && (!Holds(s.cluster, ExecError) && e.Env? ==> NonErrored(t.cluster.events) == {})
  {
    var s := Run(Init(), events);
    ReachableInv(events);
    StepKeepsInv(s, e);
    if HandlerGuarded(s.cluster) && !HandlerGuarded(Step(s, e).cluster) {
      OnlyReleaseUnguards(s, e);
      ReleasedIsFewer(s.cluster.objs, HandlerDeployment, ExecError);
    }
    if e.Env? {
      EnvIsTame(s.cluster, e.env);
    }
  }
}
