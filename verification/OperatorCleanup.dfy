/**
 What is left after a teardown: nothing that set-up applies, except what somebody else holds.
 */
module OperatorCleanup {
  import opened Decimal
  import opened Operator
  import opened OperatorSafety
  import opened OperatorTeardown

  /** The operator's finalizers sit where the operator puts them; others may add their own. */
  predicate OwnOnly(objs: map<Obj, ObjState>) {
    forall o | o in objs ::
      objs[o].finalizers - {Foreign} <=
      if o == ControllerDeployment then {PodPlacement} else if o == HandlerDeployment then {ExecError} else {}
  }

  /** Those of the listed objects that are left are held by somebody else. */
  predicate Cleared(objs: map<Obj, ObjState>, listed: seq<Obj>) {
    forall o | o in listed && o in objs :: Foreign in objs[o].finalizers
  }

  /** Those that are left and not held by somebody else are still to be deleted. */
  predicate ClearedBut(objs: map<Obj, ObjState>, listed: seq<Obj>, todo: seq<Obj>) {
    forall o | o in listed && o in objs :: Foreign in objs[o].finalizers || o in todo
  }

  predicate Within(todo: seq<Obj>, listed: seq<Obj>) {
    forall o | o in todo :: o in listed
  }

  predicate HandlerFree(objs: map<Obj, ObjState>) {
    HandlerDeployment in objs ==> ExecError !in objs[HandlerDeployment].finalizers
  }

  predicate ControllerFree(objs: map<Obj, ObjState>) {
    ControllerDeployment in objs ==> PodPlacement !in objs[ControllerDeployment].finalizers
  }

  /** The objects of the exec-error monitor, if this teardown had to do with them. */
  predicate EnoexecCleared(objs: map<Obj, ObjState>, enoexec: bool) {
    enoexec ==> Cleared(objs, DaemonObjects) && Cleared(objs, HandlerObjects)
  }

  /** How far the clearing has got. */
  predicate Clearing(s: State, enoexec: bool) {
    var objs := s.cluster.objs;
    && OwnOnly(objs)
    && match s.pc
       case Idle =>
         if s.cluster.cppc.None? then EnoexecCleared(objs, enoexec) && Cleared(objs, WebhookObjects) && Cleared(objs, ControllerObjects)
         else ExecError in s.cluster.cppc.value.finalizers || EnoexecCleared(objs, enoexec)
       case DeleteDaemon(todo, _, _) => ClearedBut(objs, DaemonObjects, todo) && Within(todo, DaemonObjects)
       case CheckDaemon(_) => Cleared(objs, DaemonObjects)
       case ListEvents(_) => Cleared(objs, DaemonObjects)
       case DeleteErrored(_, _, _) => Cleared(objs, DaemonObjects)
       case FetchHandler(_) => Cleared(objs, DaemonObjects)
       case ReleaseHandler(_) => Cleared(objs, DaemonObjects)
       case DeleteHandler(todo, _, _) =>
         Cleared(objs, DaemonObjects) && HandlerFree(objs) && ClearedBut(objs, HandlerObjects, todo) && Within(todo, HandlerObjects)
       case ReleaseExecError(_) => EnoexecCleared(objs, true)
       case DeleteWebhook(todo, _) =>
         EnoexecCleared(objs, enoexec) && ClearedBut(objs, WebhookObjects, todo) && Within(todo, WebhookObjects)
       case DeleteController(todo) =>
         && EnoexecCleared(objs, enoexec) && Cleared(objs, WebhookObjects)
         && ControllerFree(objs) && ClearedBut(objs, ControllerObjects, todo) && Within(todo, ControllerObjects)
       case ReleasePodPlacement => EnoexecCleared(objs, enoexec) && Cleared(objs, WebhookObjects) && ControllerFree(objs)
       case _ =>
         && EnoexecCleared(objs, enoexec)
         && (s.pc.CheckService? || s.pc.CheckPods? || s.pc.FetchController? || s.pc.ReleaseController? ==> Cleared(objs, WebhookObjects))
  }

  /** The two objects that carry operator finalizers are deleted with their own kind only. */
  lemma ListsApart()
    ensures HandlerDeployment !in DaemonObjects && ControllerDeployment !in DaemonObjects
    ensures HandlerDeployment !in WebhookObjects && ControllerDeployment !in WebhookObjects
    ensures ControllerDeployment !in HandlerObjects && HandlerDeployment !in ControllerObjects
  {
    assert forall i | 0 <= i < |DaemonObjects| :: DaemonObjects[i].name == EnoexecDaemon;
    assert forall i | 0 <= i < |WebhookObjects| :: WebhookObjects[i].name == PodPlacementWebhook || WebhookObjects[i].name == PodMutatingWebhook;
    assert forall i | 0 <= i < |HandlerObjects| :: HandlerObjects[i].name == EnoexecHandler || HandlerObjects[i].name == EnoexecDaemon;
    assert forall i | 0 <= i < |ControllerObjects| :: ControllerObjects[i].name == PodPlacementController;
  }

  /** Deleting one object of a list. */
  lemma DeleteClears(objs: map<Obj, ObjState>, listed: seq<Obj>, todo: seq<Obj>)
    requires OwnOnly(objs) && todo != [] && ClearedBut(objs, listed, todo)
    requires todo[0] == HandlerDeployment ==> HandlerFree(objs)
    requires todo[0] == ControllerDeployment ==> ControllerFree(objs)
    ensures OwnOnly(Deleted(objs, todo[0])) && ClearedBut(Deleted(objs, todo[0]), listed, todo[1..])
  {
    var o := todo[0];
    TailMembers(todo);
    if o in objs && Foreign !in objs[o].finalizers {
      assert objs[o].finalizers - {Foreign} == objs[o].finalizers;
      assert objs[o].finalizers == {};
    }
  }

  lemma DeleteKeepsCleared(objs: map<Obj, ObjState>, o: Obj, listed: seq<Obj>)
    requires Cleared(objs, listed)
    ensures Cleared(Deleted(objs, o), listed)
  {
  }

  lemma ReleaseKeepsCleared(objs: map<Obj, ObjState>, o: Obj, f: Finalizer, listed: seq<Obj>)
    requires Cleared(objs, listed) && OwnOnly(objs) && f != Foreign
    ensures Cleared(Released(objs, o, f), listed) && OwnOnly(Released(objs, o, f))
    ensures o in Released(objs, o, f) ==> f !in Released(objs, o, f)[o].finalizers
  {
  }

  lemma DaemonSweepClears(s: State, w: Work, enoexec: bool)
    requires TearingDown(s) && Clearing(s, enoexec) && s.pc.DeleteDaemon? && w.ok
    ensures Clearing(EnoexecStep(s, w), enoexec)
  {
    ListsApart();
    if s.pc.todo != [] {
      DeleteClears(s.cluster.objs, DaemonObjects, s.pc.todo);
    }
  }

  lemma HandlerSweepClears(s: State, w: Work, enoexec: bool)
    requires TearingDown(s) && Clearing(s, enoexec) && s.pc.DeleteHandler? && w.ok
    ensures Clearing(EnoexecStep(s, w), enoexec)
  {
    ListsApart();
    if s.pc.todo != [] {
      DeleteClears(s.cluster.objs, HandlerObjects, s.pc.todo);
      DeleteKeepsCleared(s.cluster.objs, s.pc.todo[0], DaemonObjects);
    }
  }

  lemma EnoexecReadClears(s: State, w: Work, enoexec: bool)
    requires TearingDown(s) && Clearing(s, enoexec) && w.ok && PicksWell(s, w)
    requires s.pc.CheckDaemon? || s.pc.ListEvents? || s.pc.DeleteErrored? || s.pc.FetchHandler?
    ensures Clearing(EnoexecStep(s, w), enoexec)
  {
  }

  lemma ReleaseHandlerClears(s: State, w: Work, enoexec: bool)
    requires TearingDown(s) && Clearing(s, enoexec) && s.pc.ReleaseHandler? && w.ok
    ensures Clearing(EnoexecStep(s, w), enoexec)
  {
    ReleaseKeepsCleared(s.cluster.objs, HandlerDeployment, ExecError, DaemonObjects);
  }

  lemma ReleaseExecErrorClears(s: State, w: Work, enoexec: bool)
    requires TearingDown(s) && Clearing(s, enoexec) && s.pc.ReleaseExecError? && w.ok
    ensures Clearing(EnoexecStep(s, w), enoexec)
  {
    assert PodPlacement in s.local.finalizers - {ExecError};
  }

  lemma WebhookSweepClears(s: State, w: Work, enoexec: bool)
    requires TearingDown(s) && Clearing(s, enoexec) && s.pc.DeleteWebhook? && w.ok
    ensures Clearing(DeletionStep(s, w), enoexec)
  {
    ListsApart();
    if s.pc.todo != [] {
      DeleteClears(s.cluster.objs, WebhookObjects, s.pc.todo);
      if enoexec {
        DeleteKeepsCleared(s.cluster.objs, s.pc.todo[0], DaemonObjects);
        DeleteKeepsCleared(s.cluster.objs, s.pc.todo[0], HandlerObjects);
      }
    }
  }

  lemma UpdateClears(s: State, w: Work, enoexec: bool)
    requires TearingDown(s) && Clearing(s, enoexec) && (s.pc.ReportStatus? || s.pc.CheckPpcs? || s.pc.ReleaseNoPpc?) && w.ok
    ensures Clearing(DeletionStep(s, w), enoexec)
  {
    assert PodPlacement in s.local.finalizers - {NoPpc};
  }

  lemma CheckClears(s: State, w: Work, enoexec: bool)
    requires TearingDown(s) && Clearing(s, enoexec) && (s.pc.CheckService? || s.pc.CheckPods? || s.pc.FetchController?) && w.ok
    ensures Clearing(DeletionStep(s, w), enoexec)
  {
  }

  lemma ReleaseControllerClears(s: State, w: Work, enoexec: bool)
    requires TearingDown(s) && Clearing(s, enoexec) && s.pc.ReleaseController? && w.ok
    ensures Clearing(DeletionStep(s, w), enoexec)
  {
    var objs := s.cluster.objs;
    ReleaseKeepsCleared(objs, ControllerDeployment, PodPlacement, WebhookObjects);
    if enoexec {
      ReleaseKeepsCleared(objs, ControllerDeployment, PodPlacement, DaemonObjects);
      ReleaseKeepsCleared(objs, ControllerDeployment, PodPlacement, HandlerObjects);
    }
  }

  lemma ReleasePodPlacementClears(s: State, w: Work, enoexec: bool)
    requires TearingDown(s) && Clearing(s, enoexec) && s.pc.ReleasePodPlacement? && w.ok
    ensures Clearing(DeletionStep(s, w), enoexec)
  {
  }

  lemma IdleClears(s: State, w: Work, enoexec: bool)
    requires TearingDown(s) && Clearing(s, enoexec) && s.pc.Idle? && w.ok
    ensures Clearing(SetupStep(s, w), enoexec)
  {
  }

  lemma EnoexecClears(s: State, w: Work, enoexec: bool)
    requires TearingDown(s) && Clearing(s, enoexec) && InEnoexec(s.pc) && w.ok && PicksWell(s, w)
    ensures Clearing(EnoexecStep(s, w), enoexec)
  {
    if s.pc.DeleteDaemon? {
      DaemonSweepClears(s, w, enoexec);
    } else if s.pc.DeleteHandler? {
      HandlerSweepClears(s, w, enoexec);
    } else if s.pc.ReleaseHandler? {
      ReleaseHandlerClears(s, w, enoexec);
    } else if s.pc.ReleaseExecError? {
      ReleaseExecErrorClears(s, w, enoexec);
    } else {
      EnoexecReadClears(s, w, enoexec);
    }
  }

  lemma DeletionClears(s: State, w: Work, enoexec: bool)
    requires TearingDown(s) && Clearing(s, enoexec) && InDeletion(s.pc) && w.ok
    ensures Clearing(DeletionStep(s, w), enoexec)
  {
    if s.pc.DeleteWebhook? {
      WebhookSweepClears(s, w, enoexec);
    } else if s.pc.ReportStatus? || s.pc.CheckPpcs? || s.pc.ReleaseNoPpc? {
      UpdateClears(s, w, enoexec);
    } else if s.pc.ReleaseController? {
      ReleaseControllerClears(s, w, enoexec);
    } else if s.pc.ReleasePodPlacement? {
      ReleasePodPlacementClears(s, w, enoexec);
    } else {
      CheckClears(s, w, enoexec);
    }
  }

  lemma CallClears(s: State, w: Work, enoexec: bool)
    requires TearingDown(s) && Clearing(s, enoexec) && w.ok && PicksWell(s, w)
    ensures Clearing(WorkStep(s, w), enoexec)
  {
    if s.pc.Idle? {
      IdleClears(s, w, enoexec);
    } else if InEnoexec(s.pc) {
      EnoexecClears(s, w, enoexec);
    } else {
      DeletionClears(s, w, enoexec);
    }
  }

  // ---------- After the configuration is gone ----------

  lemma LastSweepClears(s: State, w: Work, enoexec: bool)
    requires Clearing(s, enoexec) && s.pc.DeleteController? && s.cluster.cppc.None? && w.ok
    ensures Clearing(DeletionStep(s, w), enoexec) && DeletionStep(s, w).cluster.cppc.None?
  {
    var objs, todo := s.cluster.objs, s.pc.todo;
    ListsApart();
    if todo != [] {
      DeleteClears(objs, ControllerObjects, todo);
      DeleteKeepsCleared(objs, todo[0], WebhookObjects);
      if enoexec {
        DeleteKeepsCleared(objs, todo[0], DaemonObjects);
        DeleteKeepsCleared(objs, todo[0], HandlerObjects);
      }
    }
  }

  lemma {:induction false} LastSweepEnds(s: State, ws: seq<Work>, enoexec: bool)
    requires Clearing(s, enoexec) && s.cluster.cppc.None? && (s.pc.Idle? || s.pc.DeleteController?)
    requires (forall i | 0 <= i < |ws| :: ws[i].ok) && (s.pc.DeleteController? ==> |ws| > |s.pc.todo|)
    ensures Works(s, ws).pc.Idle? && Works(s, ws).cluster.cppc.None? && Clearing(Works(s, ws), enoexec)
    decreases ws
  {
    if ws != [] {
      if s.pc.DeleteController? {
        LastSweepClears(s, ws[0], enoexec);
      }
      LastSweepEnds(WorkStep(s, ws[0]), ws[1..], enoexec);
    }
  }

  lemma {:induction false} CleanupFrom(s: State, ws: seq<Work>, enoexec: bool)
    requires TearingDown(s) && Clearing(s, enoexec) && |ws| > Rank(s) + 8
    requires AllPickWell(s, ws) && forall i | 0 <= i < |ws| :: ws[i].ok
    ensures Works(s, ws).pc.Idle? && Works(s, ws).cluster.cppc.None? && Clearing(Works(s, ws), enoexec)
    decreases ws
  {
    var t := WorkStep(s, ws[0]);
    CallGetsOn(s, ws[0]);
    CallClears(s, ws[0], enoexec);
    if t.cluster.cppc.None? {
      GoneAtLast(s, ws[0]);
      LastSweepEnds(t, ws[1..], enoexec);
    } else {
      CleanupFrom(t, ws[1..], enoexec);
    }
  }

  lemma GoneAtLast(s: State, w: Work)
    requires TearingDown(s) && WorkStep(s, w).cluster.cppc.None? && w.ok && PicksWell(s, w)
    ensures WorkStep(s, w).pc == DeleteController(ControllerObjects)
  {
    CallGetsOn(s, w);
  }

  // ---------- Nothing set-up applies is left ----------

  predicate IsEnoexec(o: Obj) {
    o.name == EnoexecHandler || o.name == EnoexecDaemon
  }

  /** Everything that set-up can apply is on one of the deletion lists. */
  lemma EverythingIsListed(monitor: bool, canDeployWebhook: bool, includeDaemon: bool, o: Obj)
    requires o in ToApply(monitor, canDeployWebhook, includeDaemon)
    ensures if IsEnoexec(o) then o in DaemonObjects || o in HandlerObjects else o in WebhookObjects || o in ControllerObjects
  {
    ListedObjects();
  }

  lemma ListedObjects()
    ensures forall o | o in PlacementApplied :: !IsEnoexec(o) && (o in WebhookObjects || o in ControllerObjects)
    ensures forall o | o in EnoexecApplied :: IsEnoexec(o) && (o in DaemonObjects || o in HandlerObjects)
    ensures WebhookConfig in WebhookObjects && Daemon in DaemonObjects
  {
    assert PlacementApplied[..] == [
      ControllerObjects[0], WebhookObjects[1], ControllerObjects[2], WebhookObjects[3], ControllerObjects[4], WebhookObjects[5],
      ControllerObjects[6], ControllerObjects[3], ControllerObjects[5], WebhookObjects[4], ControllerObjects[1], WebhookObjects[2]];
    assert EnoexecApplied[..] == [
      HandlerObjects[7], HandlerObjects[5], HandlerObjects[6], HandlerObjects[3], HandlerObjects[1], DaemonObjects[0],
      DaemonObjects[2], HandlerObjects[4], HandlerObjects[2], DaemonObjects[1], DaemonObjects[3], HandlerObjects[0]];
    assert WebhookObjects[0] == WebhookConfig && DaemonObjects[5] == Daemon;
  }

  /** An undisturbed teardown of a deleting configuration ends with the worker at rest and nothing left of
      what set-up applies, except what somebody else's finalizer holds; of the exec-error objects, if the
      configuration held their finalizer. */
  lemma TeardownCleansUp(s: State, ws: seq<Work>, monitor: bool, canDeployWebhook: bool, includeDaemon: bool, o: Obj)
    requires s.pc.Idle? && TearingDown(s) && OwnOnly(s.cluster.objs) && |ws| > Rank(s) + 8
    requires AllPickWell(s, ws) && forall i | 0 <= i < |ws| :: ws[i].ok
    requires o in ToApply(monitor, canDeployWebhook, includeDaemon)
    requires IsEnoexec(o) ==> ExecError in s.cluster.cppc.value.finalizers
    ensures Works(s, ws).pc.Idle? && Works(s, ws).cluster.cppc.None?
    ensures o in Works(s, ws).cluster.objs ==> Foreign in Works(s, ws).cluster.objs[o].finalizers
  {
    CleanupFrom(s, ws, ExecError in s.cluster.cppc.value.finalizers);
    EverythingIsListed(monitor, canDeployWebhook, includeDaemon, o);
  }
}
