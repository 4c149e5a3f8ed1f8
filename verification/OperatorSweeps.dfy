/**
 The order of deletions and releases, over every interleaving: a finalizer of the configuration goes only
 after the objects it stands for are gone or going; and a failing call keeps no other from being made.
 */
module OperatorSweeps {
  import opened Operator
  import opened OperatorSafety
  import opened OperatorTeardown

  /** Every listed object, except those still to be seen to, is gone or being deleted. */
  predicate Going(objs: map<Obj, ObjState>, listed: seq<Obj>, todo: seq<Obj>) {
    forall o | o in listed && o in objs && o !in todo :: objs[o].deleting
  }

  predicate DaemonGoing(s: State) {
    InEnoexec(s.pc) ==>
      if s.pc.DeleteDaemon? then !s.pc.failed ==> Going(s.cluster.objs, DaemonObjects, s.pc.todo)
      else Going(s.cluster.objs, DaemonObjects, [])
  }

  predicate HandlerGoing(s: State) {
    && (s.pc.DeleteHandler? && !s.pc.failed ==> Going(s.cluster.objs, HandlerObjects, s.pc.todo))
    && (s.pc.ReleaseExecError? ==> Going(s.cluster.objs, HandlerObjects, []))
  }

  predicate PastWebhook(pc: Pc) {
    pc.CheckService? || pc.CheckPods? || pc.FetchController? || pc.ReleaseController? || pc.ReleasePodPlacement?
  }

  predicate WebhookGoing(s: State) {
    && (s.pc.DeleteWebhook? && !s.pc.failed ==> Going(s.cluster.objs, WebhookObjects, s.pc.todo))
    && (PastWebhook(s.pc) ==> Going(s.cluster.objs, WebhookObjects, []))
  }

  predicate Sweeping(s: State) {
    DaemonGoing(s) && HandlerGoing(s) && WebhookGoing(s)
  }

  // ---------- Every step keeps it ----------

  lemma DeleteKeepsGoing(objs: map<Obj, ObjState>, listed: seq<Obj>, todo: seq<Obj>, o: Obj)
    requires Going(objs, listed, todo)
    ensures Going(Deleted(objs, o), listed, todo)
    ensures todo != [] && o == todo[0] ==> Going(Deleted(objs, o), listed, todo[1..])
  {
    if todo != [] {
      TailMembers(todo);
    }
  }

  lemma ReleaseKeepsGoing(objs: map<Obj, ObjState>, listed: seq<Obj>, todo: seq<Obj>, o: Obj, f: Finalizer)
    requires Going(objs, listed, todo)
    ensures Going(Released(objs, o, f), listed, todo)
  {
  }

  lemma EnvKeepsGoing(c: Cluster, e: EnvEvent, listed: seq<Obj>, todo: seq<Obj>)
    requires Going(c.objs, listed, todo)
    ensures Going(EnvStep(c, e).objs, listed, todo)
  {
    match e
    case DeleteObject(obj) => DeleteKeepsGoing(c.objs, listed, todo, obj);
    case RemoveForeignFrom(obj) => ReleaseKeepsGoing(c.objs, listed, todo, obj, Foreign);
    case _ =>
  }

  lemma EnvKeepsSweeping(s: State, e: EnvEvent)
    requires Sweeping(s)
    ensures Sweeping(s.(cluster := EnvStep(s.cluster, e)))
  {
    if InEnoexec(s.pc) {
      if s.pc.DeleteDaemon? {
        if !s.pc.failed {
          EnvKeepsGoing(s.cluster, e, DaemonObjects, s.pc.todo);
        }
      } else {
        EnvKeepsGoing(s.cluster, e, DaemonObjects, []);
      }
    }
    if s.pc.DeleteHandler? && !s.pc.failed {
      EnvKeepsGoing(s.cluster, e, HandlerObjects, s.pc.todo);
    } else if s.pc.ReleaseExecError? {
      EnvKeepsGoing(s.cluster, e, HandlerObjects, []);
    } else if s.pc.DeleteWebhook? && !s.pc.failed {
      EnvKeepsGoing(s.cluster, e, WebhookObjects, s.pc.todo);
    } else if PastWebhook(s.pc) {
      EnvKeepsGoing(s.cluster, e, WebhookObjects, []);
    }
  }

  lemma DaemonKeepsSweeping(s: State, w: Work)
    requires Sweeping(s) && s.pc.DeleteDaemon?
    ensures Sweeping(EnoexecStep(s, w))
  {
    if s.pc.todo != [] && !s.pc.failed {
      DeleteKeepsGoing(s.cluster.objs, DaemonObjects, s.pc.todo, s.pc.todo[0]);
    }
  }

  lemma HandlerKeepsSweeping(s: State, w: Work)
    requires Sweeping(s) && s.pc.DeleteHandler?
    ensures Sweeping(EnoexecStep(s, w))
  {
    if s.pc.todo != [] {
      DeleteKeepsGoing(s.cluster.objs, DaemonObjects, [], s.pc.todo[0]);
      if !s.pc.failed {
        DeleteKeepsGoing(s.cluster.objs, HandlerObjects, s.pc.todo, s.pc.todo[0]);
      }
    }
  }

  lemma EnoexecKeepsSweeping(s: State, w: Work)
    requires Sweeping(s) && InEnoexec(s.pc)
    ensures Sweeping(EnoexecStep(s, w))
  {
    if s.pc.DeleteDaemon? {
      DaemonKeepsSweeping(s, w);
    } else if s.pc.DeleteHandler? {
      HandlerKeepsSweeping(s, w);
    } else if s.pc.ReleaseHandler? {
      ReleaseKeepsGoing(s.cluster.objs, DaemonObjects, [], HandlerDeployment, ExecError);
    }
  }

  lemma WebhookKeepsSweeping(s: State, w: Work)
    requires Sweeping(s) && s.pc.DeleteWebhook?
    ensures Sweeping(DeletionStep(s, w))
  {
    if s.pc.todo != [] && !s.pc.failed {
      DeleteKeepsGoing(s.cluster.objs, WebhookObjects, s.pc.todo, s.pc.todo[0]);
    }
  }

  lemma DeletionKeepsSweeping(s: State, w: Work)
    requires Sweeping(s) && InDeletion(s.pc)
    ensures Sweeping(DeletionStep(s, w))
  {
    if s.pc.DeleteWebhook? {
      WebhookKeepsSweeping(s, w);
    } else if s.pc.ReleaseController? {
      ReleaseKeepsGoing(s.cluster.objs, WebhookObjects, [], ControllerDeployment, PodPlacement);
    } else if s.pc.ReportStatus? {
      assert Going(s.cluster.objs, WebhookObjects, WebhookObjects);
    }
  }

  lemma SetupKeepsSweeping(s: State, w: Work)
    requires !InEnoexec(s.pc) && !InDeletion(s.pc)
    ensures Sweeping(SetupStep(s, w))
  {
    var t := SetupStep(s, w);
    assert !InDeletion(t.pc) || t.pc.ReportStatus?;
    if InEnoexec(t.pc) {
      assert t.pc.DeleteDaemon? && t.pc.todo == DaemonObjects;
    }
  }

  lemma StepKeepsSweeping(s: State, e: Event)
    requires Sweeping(s)
    ensures Sweeping(Step(s, e))
  {
    if e.Env? {
      EnvKeepsSweeping(s, e.env);
    } else if e.Op? && InEnoexec(s.pc) {
      EnoexecKeepsSweeping(s, e.work);
    } else if e.Op? && InDeletion(s.pc) {
      DeletionKeepsSweeping(s, e.work);
    } else if e.Op? {
      SetupKeepsSweeping(s, e.work);
    }
  }

  lemma {:induction false} ReachableSweeping(events: seq<Event>)
    ensures Sweeping(Run(Init(), events))
  {
    if events != [] {
      ReachableSweeping(events[..|events| - 1]);
      StepKeepsSweeping(Run(Init(), events[..|events| - 1]), events[|events| - 1]);
    }
  }

  lemma WorkKeepsExecError(s: State, w: Work)
    requires Inv(s) && CanUpdate(s, w.ok) && !s.pc.Idle? && !s.pc.ReleaseExecError?
    requires Holds(s.cluster, ExecError)
    ensures Holds(WorkStep(s, w).cluster, ExecError)
  {
    assert s.local == s.cluster.cppc.value;
    var t := WorkStep(s, w);
    if t.cluster.cppc != s.cluster.cppc {
      assert ExecError in t.local.finalizers;
      StoredHolds(s.cluster, t.local, ExecError);
    }
  }

  /** In every interleaving: when the exec-error finalizer leaves the configuration, every object of daemon
      and handler is gone or being deleted. */
  lemma ExecErrorGoesLast(events: seq<Event>, e: Event, o: Obj)
    requires var s := Run(Init(), events); Holds(s.cluster, ExecError) && !Holds(Step(s, e).cluster, ExecError)
    requires o in DaemonObjects || o in HandlerObjects
    ensures var objs := Run(Init(), events).cluster.objs; o in objs ==> objs[o].deleting
  {
    var s := Run(Init(), events);
    ReachableInv(events);
    ReachableSweeping(events);
    if e.Env? {
      EnvKeepsFinalizer(s.cluster, e.env, ExecError);
    } else if e.Op? && CanUpdate(s, e.work.ok) && !s.pc.Idle? && !s.pc.ReleaseExecError? {
      WorkKeepsExecError(s, e.work);
    }
  }

  /** And when the pod-placement finalizer does, every object of the webhook. */
  lemma PodPlacementGoesLast(events: seq<Event>, e: Event, o: Obj)
    requires var s := Run(Init(), events); Holds(s.cluster, PodPlacement) && !Holds(Step(s, e).cluster, PodPlacement)
    requires o in WebhookObjects
    ensures var objs := Run(Init(), events).cluster.objs; o in objs ==> objs[o].deleting
  {
    ReachableInv(events);
    ReachableSweeping(events);
    OnlyReleaseDrops(Run(Init(), events), e);
  }

  // ---------- Failing calls ----------

  /** One object that cannot be applied keeps no other from being applied. */
  lemma {:induction false} ApplyGoesOn(s: State, ws: seq<Work>, k: nat)
    requires s.pc.Applying? && |ws| == |s.pc.todo| && k < |ws| && ws[k].ok
    ensures Works(s, ws).pc == Applying([]) && s.pc.todo[k] in Works(s, ws).cluster.objs
    decreases ws
  {
    var t := WorkStep(s, ws[0]);
    if k == 0 {
      AppliedStays(t, ws[1..], s.pc.todo[0]);
    } else {
      ApplyGoesOn(t, ws[1..], k - 1);
    }
  }

  lemma {:induction false} AppliedStays(s: State, ws: seq<Work>, o: Obj)
    requires s.pc.Applying? && |ws| == |s.pc.todo| && o in s.cluster.objs
    ensures Works(s, ws).pc == Applying([]) && o in Works(s, ws).cluster.objs
    decreases ws
  {
    if ws != [] {
      AppliedStays(WorkStep(s, ws[0]), ws[1..], o);
    }
  }

  predicate IsSweep(pc: Pc) {
    pc.DeleteDaemon? || pc.DeleteHandler? || pc.DeleteWebhook? || pc.DeleteController?
  }

  /** Nor does one that cannot be deleted keep any other from being deleted. */
  lemma {:induction false} SweepGoesOn(s: State, ws: seq<Work>, k: nat)
    requires IsSweep(s.pc) && |ws| == |s.pc.todo| && k < |ws| && ws[k].ok
    ensures var t := Works(s, ws);
            && IsSweep(t.pc) && t.pc.todo == []
            && (s.pc.todo[k] in t.cluster.objs ==> t.cluster.objs[s.pc.todo[k]].deleting)
    decreases ws
  {
    var t := WorkStep(s, ws[0]);
    if k == 0 {
      GoingStays(t, ws[1..], s.pc.todo[0]);
    } else {
      SweepGoesOn(t, ws[1..], k - 1);
    }
  }

  lemma {:induction false} GoingStays(s: State, ws: seq<Work>, o: Obj)
    requires IsSweep(s.pc) && |ws| == |s.pc.todo| && (o in s.cluster.objs ==> s.cluster.objs[o].deleting)
    ensures var t := Works(s, ws);
            IsSweep(t.pc) && t.pc.todo == [] && (o in t.cluster.objs ==> t.cluster.objs[o].deleting)
    decreases ws
  {
    if ws != [] {
      GoingStays(WorkStep(s, ws[0]), ws[1..], o);
    }
  }
}
