/**
 Set-up gets done too: left alone, the passes over a configuration that stays bring its finalizers in
 line, put every object in place, and then change nothing any more.
 */
module OperatorSetup {
  import opened Decimal
  import opened Operator
  import opened OperatorSafety
  import opened OperatorTeardown
  import opened OperatorCleanup

  // ---------- The goal ----------

  /** The operator finalizers a configuration should have. */
  function Wanted(c: Cluster): set<Finalizer>
    requires c.cppc.Some?
  {
    {PodPlacement} + (if c.ppcs != {} then {NoPpc} else {}) + (if c.cppc.value.monitor then {ExecError} else {})
  }

  predicate InPlace(objs: map<Obj, ObjState>, monitor: bool) {
    && (forall o | o in ToApply(monitor, true, true) :: o in objs)
    && (ControllerDeployment in objs ==> !objs[ControllerDeployment].deleting)
  }

  predicate Unguarded(c: Cluster) {
    c.cppc.Some? && c.cppc.value.monitor && HandlerDeployment in c.objs && ExecError !in c.objs[HandlerDeployment].finalizers
  }

  /** The finalizers are the wanted ones, every object is there, and the handler Deployment is guarded. */
  predicate Installed(c: Cluster) {
    && c.cppc.Some?
    && c.cppc.value.finalizers - {Foreign} == Wanted(c)
    && InPlace(c.objs, c.cppc.value.monitor)
    && !Unguarded(c)
  }

  // ---------- What set-up keeps ----------

  /** A configuration that stays; objects that nobody else holds; and nothing left for a disabled
      monitor to wait for. */
  predicate Undisturbed(c: Cluster) {
    && c.cppc.Some? && !c.cppc.value.deleting
    && OwnOnly(c.objs)
    && (forall o | o in c.objs :: Foreign !in c.objs[o].finalizers && (c.objs[o].deleting ==> c.objs[o].finalizers != {}))
    && (c.cppc.value.monitor && HandlerDeployment in c.objs ==> !c.objs[HandlerDeployment].deleting)
    && NonErrored(c.events) == {}
  }

  predicate PastFinalizers(s: State) {
    && PodPlacement in s.local.finalizers && (NoPpc in s.local.finalizers <==> s.cluster.ppcs != {})
    && (s.local.monitor ==> ExecError in s.local.finalizers)
  }

  predicate ControllerStays(c: Cluster) {
    ControllerDeployment in c.objs ==> !c.objs[ControllerDeployment].deleting
  }

  predicate SetupFits(s: State) {
    && (!s.pc.AddPodPlacement? ==> PodPlacement in s.local.finalizers)
    && match s.pc
       case AddPodPlacement => PodPlacement !in s.local.finalizers
       case ListPpcs => true
       case SetNoPpc(add) => add == (s.cluster.ppcs != {}) && add != (NoPpc in s.local.finalizers)
       case AddExecError =>
         && s.local.monitor && ExecError !in s.local.finalizers && (NoPpc in s.local.finalizers <==> s.cluster.ppcs != {})
       case GetHandler => PastFinalizers(s) && s.local.monitor
       case GuardHandler => PastFinalizers(s) && Unguarded(s.cluster)
       case GetController => PastFinalizers(s) && !Unguarded(s.cluster)
       case ReleaseTerminating =>
         && PastFinalizers(s) && !Unguarded(s.cluster) && ControllerDeployment in s.cluster.objs
         && s.cluster.objs[ControllerDeployment].deleting
       case GatherStatus => PastFinalizers(s) && !Unguarded(s.cluster) && ControllerStays(s.cluster)
       case Applying(todo) =>
         && PastFinalizers(s) && (!s.local.monitor ==> ExecError !in s.local.finalizers) && ControllerStays(s.cluster)
         && |todo| <= 26 && forall o | o in ToApply(s.local.monitor, true, true) :: o in s.cluster.objs || o in todo
       case _ =>
         && PastFinalizers(s) && !Unguarded(s.cluster) && ControllerStays(s.cluster)
         && (!s.local.monitor ==> ExecError !in s.local.finalizers)
         && (s.pc.BeginApply? || (s.pc.CheckObjects? && s.pc.canDeployWebhook))
  }

  predicate DisableFits(s: State)
    requires InEnoexec(s.pc)
  {
    && PastFinalizers(s) && !s.local.monitor && ExecError in s.local.finalizers && s.pc.cause == Disable && ControllerStays(s.cluster)
    && match s.pc
       case DeleteDaemon(todo, failed, _) =>
         !failed && |todo| <= 6 && Within(todo, DaemonObjects) && (Daemon in s.cluster.objs ==> Daemon in todo)
       case DeleteErrored(left, blocked, _) => !blocked && left <= Errored(s.cluster.events)
       case DeleteHandler(todo, failed, _) => !failed && |todo| <= 8 && Within(todo, HandlerObjects)
       case CheckDaemon(_) => Daemon !in s.cluster.objs
       case _ => true
  }

  /** Where an undisturbed set-up can be. */
  predicate SettingUp(s: State) {
    && Undisturbed(s.cluster)
    && (s.pc.Idle?
        || (&& s.cluster.cppc == Some(s.local) && !InDeletion(s.pc)
            && if InEnoexec(s.pc) then DisableFits(s) else SetupFits(s)))
  }

  /** A successful call that finds the cluster ready for the webhook and the daemon. */
  predicate Ready(s: State, w: Work) {
    w.ok && w.canDeployWebhook && w.includeDaemon && PicksWell(s, w)
  }

  // ---------- What it uses up ----------

  function Off(b: bool): nat {
    if b then 1 else 0
  }

  /** How far the finalizers of a configuration are from the wanted ones. */
  function Finalizing(v: Cppc, ppcs: set<nat>): nat {
    8 * (Off(PodPlacement !in v.finalizers)
         + Off((NoPpc in v.finalizers) != (ppcs != {}))
         + Off(v.monitor && ExecError !in v.finalizers))
    + 4 * Off(!v.monitor && ExecError in v.finalizers)
  }

  /** How far the objects are from being in place. */
  function Placing(c: Cluster): nat
    requires c.cppc.Some?
  {
    2 * Off(!InPlace(c.objs, c.cppc.value.monitor)) + Off(Unguarded(c))
  }

  function Steps(s: State): nat {
    var errored := |Errored(s.cluster.events)|;
    match s.pc
    case Idle => 95 + errored
    case ListPpcs => 90 + errored
    case GetHandler => 89 + errored
    case GetController => 88 + errored
    case ReleaseTerminating => 87 + errored
    case GatherStatus => 86 + errored
    case DeleteDaemon(todo, _, _) => 75 + errored + |todo|
    case CheckDaemon(_) => 74 + errored
    case ListEvents(_) => 73 + errored
    case DeleteErrored(left, _, _) => 72 + |left|
    case FetchHandler(_) => 71
    case ReleaseHandler(_) => 70
    case DeleteHandler(todo, _, _) => 60 + |todo|
    case ReleaseExecError(_) => 59
    case BeginApply => 50
    case CheckObjects(_) => 49
    case Applying(todo) => 10 + |todo|
    case _ => 1
  }

  function LevelOf(s: State): nat
    requires s.cluster.cppc.Some?
  {
    Finalizing(s.cluster.cppc.value, s.cluster.ppcs) + (if s.pc.Applying? then 2 else Placing(s.cluster))
  }

  /** The step leads on: it lowers the level, or it keeps it and comes nearer to the end of the pass. */
  predicate ComesNearer(s: State, t: State) {
    && SettingUp(s) && SettingUp(t)
    && |Errored(t.cluster.events)| <= |Errored(s.cluster.events)|
    && (Installed(s.cluster) ==> Installed(t.cluster))
    && (Installed(t.cluster) || LevelOf(t) < LevelOf(s) || (LevelOf(t) == LevelOf(s) && Steps(t) < Steps(s)))
  }

  // ---------- Every call comes nearer ----------

  /** A call that only reads. */
  lemma ReadComesNearer(s: State, t: State)
    requires SettingUp(s) && SettingUp(t) && t.cluster == s.cluster && !s.pc.Applying? && !t.pc.Applying? && Steps(t) < Steps(s)
    ensures ComesNearer(s, t)
  {
  }

  lemma StartComesNearer(s: State, w: Work)
    requires SettingUp(s) && s.pc.Idle? && Ready(s, w)
    ensures ComesNearer(s, SetupStep(s, w))
  {
    var t := SetupStep(s, w);
    assert t.cluster == s.cluster && SettingUp(t);
    ReadComesNearer(s, t);
  }

  lemma ListComesNearer(s: State, w: Work)
    requires SettingUp(s) && s.pc.ListPpcs? && Ready(s, w)
    ensures ComesNearer(s, SetupStep(s, w))
  {
    var t := SetupStep(s, w);
    assert t.cluster == s.cluster && t.local == s.local && SetupFits(t);
    ReadComesNearer(s, t);
  }

  /** What an update of the finalizers leaves alone. */
  lemma UpdateKeeps(s: State, w: Work, finalizers: set<Finalizer>)
    requires SettingUp(s) && !s.pc.Idle? && Ready(s, w)
    ensures CanUpdate(s, w.ok)
    ensures var t := Updated(s, finalizers);
            && t.cluster.cppc == Some(t.local) && t.local == s.local.(finalizers := finalizers, version := s.cluster.clock)
            && t.cluster == s.cluster.(cppc := t.cluster.cppc, clock := t.cluster.clock)
            && Undisturbed(t.cluster) && Placing(t.cluster) == Placing(s.cluster)
  {
  }

  lemma AddPodPlacementComesNearer(s: State, w: Work)
    requires SettingUp(s) && s.pc.AddPodPlacement? && Ready(s, w)
    ensures ComesNearer(s, SetupStep(s, w))
  {
    UpdateKeeps(s, w, s.local.finalizers + {PodPlacement});
  }

  lemma SetNoPpcComesNearer(s: State, w: Work)
    requires SettingUp(s) && s.pc.SetNoPpc? && Ready(s, w)
    ensures ComesNearer(s, SetupStep(s, w))
  {
    UpdateKeeps(s, w, if s.pc.add then s.local.finalizers + {NoPpc} else s.local.finalizers - {NoPpc});
  }

  lemma AddExecErrorComesNearer(s: State, w: Work)
    requires SettingUp(s) && s.pc.AddExecError? && Ready(s, w)
    ensures ComesNearer(s, SetupStep(s, w))
  {
    UpdateKeeps(s, w, s.local.finalizers + {ExecError});
  }

  lemma GetHandlerComesNearer(s: State, w: Work)
    requires SettingUp(s) && (s.pc.GetHandler? || s.pc.GetController?) && Ready(s, w)
    ensures ComesNearer(s, SetupStep(s, w))
  {
    var t := SetupStep(s, w);
    assert t.cluster == s.cluster && t.local == s.local;
    if s.pc.GetController? && ControllerDeployment in s.cluster.objs && s.cluster.objs[ControllerDeployment].deleting {
      var f := s.cluster.objs[ControllerDeployment].finalizers;
      assert f - {Foreign} == f && f <= {PodPlacement};
    }
    assert SetupFits(t);
    ReadComesNearer(s, t);
  }

  lemma GuardComesNearer(s: State, w: Work)
    requires SettingUp(s) && s.pc.GuardHandler? && Ready(s, w)
    ensures ComesNearer(s, SetupStep(s, w))
  {
  }

  /** The release of a terminating controller Deployment lets it go. */
  lemma TerminatingGoes(c: Cluster)
    requires Undisturbed(c) && ControllerDeployment in c.objs && c.objs[ControllerDeployment].deleting
    ensures var d := c.(objs := Released(c.objs, ControllerDeployment, PodPlacement));
            && ControllerDeployment !in d.objs && Undisturbed(d) && (Unguarded(d) <==> Unguarded(c))
            && !InPlace(c.objs, c.cppc.value.monitor) && !InPlace(d.objs, c.cppc.value.monitor)
  {
    var f := c.objs[ControllerDeployment].finalizers;
    assert f - {Foreign} == f && f <= {PodPlacement};
    assert f - {PodPlacement} == {};
    ControllerIsApplied(c.cppc.value.monitor);
  }

  lemma ReleaseComesNearer(s: State, w: Work)
    requires SettingUp(s) && s.pc.ReleaseTerminating? && Ready(s, w)
    ensures ComesNearer(s, SetupStep(s, w))
  {
    TerminatingGoes(s.cluster);
  }

  lemma ControllerIsApplied(monitor: bool)
    ensures ControllerDeployment in ToApply(monitor, true, true)
  {
    assert PlacementApplied[10] == ControllerDeployment;
  }

  lemma GatherComesNearer(s: State, w: Work)
    requires SettingUp(s) && s.pc.GatherStatus? && Ready(s, w)
    ensures ComesNearer(s, SetupStep(s, w))
  {
    var t := SetupStep(s, w);
    assert DaemonObjects[5] == Daemon;
    assert t.cluster == s.cluster && t.local == s.local && SettingUp(t);
    ReadComesNearer(s, t);
  }

  lemma BeginComesNearer(s: State, w: Work)
    requires SettingUp(s) && s.pc.BeginApply? && Ready(s, w)
    ensures ComesNearer(s, SetupStep(s, w))
  {
    var t := SetupStep(s, w);
    assert t.cluster == s.cluster && t.local == s.local && SetupFits(t);
    ReadComesNearer(s, t);
  }

  lemma CheckComesNearer(s: State, w: Work)
    requires SettingUp(s) && s.pc.CheckObjects? && Ready(s, w)
    ensures ComesNearer(s, SetupStep(s, w))
  {
    var t := SetupStep(s, w);
    assert t.pc == Applying(ToApply(s.local.monitor, true, true)) && |t.pc.todo| <= 26;
    assert t.cluster == s.cluster && t.local == s.local && SetupFits(t);
    NothingElseMissing(s);
  }

  /** With the finalizers seen to, only objects can be missing. */
  lemma NothingElseMissing(s: State)
    requires s.cluster.cppc == Some(s.local) && PastFinalizers(s) && !Unguarded(s.cluster)
    requires !s.local.monitor ==> ExecError !in s.local.finalizers
    ensures Installed(s.cluster) <==> InPlace(s.cluster.objs, s.local.monitor)
    ensures Finalizing(s.local, s.cluster.ppcs) == 0
  {
    forall f: Finalizer
      ensures f in s.local.finalizers - {Foreign} <==> f in Wanted(s.cluster)
    {
      match f {
        case PodPlacement =>
        case NoPpc =>
        case ExecError =>
        case Foreign =>
      }
    }
  }

  lemma ApplyKeeps(c: Cluster, o: Obj)
    requires Undisturbed(c)
    ensures var d := c.(objs := Applied(c.objs, o));
            && Undisturbed(d) && o in d.objs && (ControllerStays(c) ==> ControllerStays(d))
            && (Installed(c) ==> Installed(d))
  {
    if Installed(c) && o == HandlerDeployment && c.cppc.value.monitor {
      AppliedAre(true);
    }
  }

  lemma ApplyComesNearer(s: State, w: Work)
    requires SettingUp(s) && s.pc.Applying? && s.pc.todo != [] && Ready(s, w)
    ensures ComesNearer(s, SetupStep(s, w))
  {
    ApplyKeeps(s.cluster, s.pc.todo[0]);
    TailMembers(s.pc.todo);
  }

  lemma ApplyEnds(s: State, w: Work)
    requires SettingUp(s) && s.pc.Applying? && s.pc.todo == [] && Ready(s, w)
    ensures ComesNearer(s, SetupStep(s, w))
  {
  }

  lemma SetupComesNearer(s: State, w: Work)
    requires SettingUp(s) && !InEnoexec(s.pc) && Ready(s, w)
    ensures ComesNearer(s, SetupStep(s, w))
  {
    if s.pc.Idle? {
      StartComesNearer(s, w);
    } else if s.pc.ListPpcs? {
      ListComesNearer(s, w);
    } else if s.pc.AddPodPlacement? {
      AddPodPlacementComesNearer(s, w);
    } else if s.pc.SetNoPpc? {
      SetNoPpcComesNearer(s, w);
    } else if s.pc.AddExecError? {
      AddExecErrorComesNearer(s, w);
    } else if s.pc.GetHandler? || s.pc.GetController? {
      GetHandlerComesNearer(s, w);
    } else if s.pc.GuardHandler? {
      GuardComesNearer(s, w);
    } else if s.pc.ReleaseTerminating? {
      ReleaseComesNearer(s, w);
    } else if s.pc.GatherStatus? {
      GatherComesNearer(s, w);
    } else if s.pc.BeginApply? {
      BeginComesNearer(s, w);
    } else if s.pc.CheckObjects? {
      CheckComesNearer(s, w);
    } else if s.pc.todo != [] {
      ApplyComesNearer(s, w);
    } else {
      ApplyEnds(s, w);
    }
  }

  // ---------- Disabling the monitor ----------

  /** The exec-error teardown leaves everything else in place. */
  lemma DisableKeepsPlace(objs: map<Obj, ObjState>, o: Obj)
    requires IsEnoexec(o)
    ensures InPlace(Deleted(objs, o), false) <==> InPlace(objs, false)
    ensures InPlace(Released(objs, o, ExecError), false) <==> InPlace(objs, false)
  {
    ListedObjects();
    assert forall x | x in ToApply(false, true, true) :: !IsEnoexec(x);
  }

  lemma SweptIsEnoexec()
    ensures forall o | o in DaemonObjects || o in HandlerObjects :: IsEnoexec(o)
  {
    assert forall i | 0 <= i < |DaemonObjects| :: DaemonObjects[i].name == EnoexecDaemon;
    assert forall i | 0 <= i < |HandlerObjects| :: HandlerObjects[i].name == EnoexecHandler || HandlerObjects[i].name == EnoexecDaemon;
  }

  /** A delete of an exec-error object. */
  lemma DeleteKeeps(s: State, o: Obj)
    requires Undisturbed(s.cluster) && !s.cluster.cppc.value.monitor && IsEnoexec(o)
    ensures var c := s.cluster.(objs := Deleted(s.cluster.objs, o));
            Undisturbed(c) && Placing(c) == Placing(s.cluster) && (Installed(s.cluster) <==> Installed(c))
            && (ControllerStays(s.cluster) ==> ControllerStays(c))
  {
    DisableKeepsPlace(s.cluster.objs, o);
  }

  lemma DeleteDaemonComesNearer(s: State, w: Work)
    requires SettingUp(s) && s.pc.DeleteDaemon? && Ready(s, w)
    ensures ComesNearer(s, EnoexecStep(s, w))
  {
    if s.pc.todo != [] {
      SweptIsEnoexec();
      DeleteKeeps(s, s.pc.todo[0]);
      DeletedIsFewer(s.cluster.objs, s.pc.todo[0]);
      TailMembers(s.pc.todo);
    }
  }

  lemma DeleteHandlerComesNearer(s: State, w: Work)
    requires SettingUp(s) && s.pc.DeleteHandler? && Ready(s, w)
    ensures ComesNearer(s, EnoexecStep(s, w))
  {
    if s.pc.todo != [] {
      SweptIsEnoexec();
      DeleteKeeps(s, s.pc.todo[0]);
      TailMembers(s.pc.todo);
    }
  }

  lemma EventGoes(events: map<nat, bool>, e: nat, left: set<nat>)
    requires left <= Errored(events) && NonErrored(events) == {}
    ensures NonErrored(events - {e}) == {} && left - {e} <= Errored(events - {e})
    ensures |Errored(events - {e})| <= |Errored(events)|
  {
    assert NonErrored(events - {e}) <= NonErrored(events);
    assert Errored(events - {e}) == Errored(events) - {e};
  }

  lemma EventsComeNearer(s: State, w: Work)
    requires SettingUp(s) && s.pc.DeleteErrored? && Ready(s, w)
    ensures ComesNearer(s, EnoexecStep(s, w))
  {
    EventGoes(s.cluster.events, w.pick, s.pc.left);
  }

  lemma CheckDaemonComesNearer(s: State, w: Work)
    requires SettingUp(s) && (s.pc.CheckDaemon? || s.pc.ListEvents? || s.pc.FetchHandler?) && Ready(s, w)
    ensures ComesNearer(s, EnoexecStep(s, w))
  {
    var t := EnoexecStep(s, w);
    assert t.cluster == s.cluster && t.local == s.local && DisableFits(t);
    ReadComesNearer(s, t);
  }

  lemma ReleaseHandlerComesNearer(s: State, w: Work)
    requires SettingUp(s) && s.pc.ReleaseHandler? && Ready(s, w)
    ensures ComesNearer(s, EnoexecStep(s, w))
  {
    DisableKeepsPlace(s.cluster.objs, HandlerDeployment);
  }

  lemma ReleaseExecErrorComesNearer(s: State, w: Work)
    requires SettingUp(s) && s.pc.ReleaseExecError? && Ready(s, w)
    ensures ComesNearer(s, EnoexecStep(s, w))
  {
    UpdateKeeps(s, w, s.local.finalizers - {ExecError});
    var t := EnoexecStep(s, w);
    assert t.pc == BeginApply && SetupFits(t);
    assert Finalizing(t.local, t.cluster.ppcs) < Finalizing(s.local, s.cluster.ppcs);
    assert ExecError in s.local.finalizers - {Foreign} && ExecError !in Wanted(s.cluster);
  }

  lemma DisableComesNearer(s: State, w: Work)
    requires SettingUp(s) && InEnoexec(s.pc) && Ready(s, w)
    ensures ComesNearer(s, EnoexecStep(s, w))
  {
    if s.pc.DeleteDaemon? {
      DeleteDaemonComesNearer(s, w);
    } else if s.pc.DeleteHandler? {
      DeleteHandlerComesNearer(s, w);
    } else if s.pc.DeleteErrored? {
      EventsComeNearer(s, w);
    } else if s.pc.ReleaseHandler? {
      ReleaseHandlerComesNearer(s, w);
    } else if s.pc.ReleaseExecError? {
      ReleaseExecErrorComesNearer(s, w);
    } else {
      CheckDaemonComesNearer(s, w);
    }
  }

  lemma CallComesNearer(s: State, w: Work)
    requires SettingUp(s) && Ready(s, w)
    ensures ComesNearer(s, WorkStep(s, w))
  {
    if InEnoexec(s.pc) {
      DisableComesNearer(s, w);
    } else {
      SetupComesNearer(s, w);
    }
  }

  // ---------- Whole runs ----------

  predicate AllReady(s: State, ws: seq<Work>)
    decreases ws
  {
    ws != [] ==> Ready(s, ws[0]) && AllReady(WorkStep(s, ws[0]), ws[1..])
  }

  lemma {:induction false} InstalledStays(s: State, ws: seq<Work>)
    requires SettingUp(s) && Installed(s.cluster) && AllReady(s, ws)
    ensures Installed(Works(s, ws).cluster)
    decreases ws
  {
    if ws != [] {
      CallComesNearer(s, ws[0]);
      InstalledStays(WorkStep(s, ws[0]), ws[1..]);
    }
  }

  lemma LowerLevel(low: nat, high: nat, k: nat)
    requires low < high
    ensures low * k + k <= high * k
  {
    assert (low + 1) * k <= high * k;
  }

  lemma StepsAreFew(s: State)
    requires SettingUp(s)
    ensures Steps(s) < 96 + |Errored(s.cluster.events)|
  {
    if s.pc.DeleteErrored? {
      SubsetIsFewer(s.pc.left, Errored(s.cluster.events));
    }
  }

  lemma {:induction false} SubsetIsFewer(a: set<nat>, b: set<nat>)
    requires a <= b
    ensures |a| <= |b|
  {
    assert b == a + (b - a);
  }

  /** A bound on the calls that are left, when no pass takes more than `k`. */
  function Left(s: State, k: nat): nat
    requires s.cluster.cppc.Some?
  {
    LevelOf(s) * k + Steps(s)
  }

  lemma LessIsLeft(s: State, t: State, k: nat)
    requires ComesNearer(s, t) && !Installed(t.cluster) && k >= 96 + |Errored(s.cluster.events)|
    ensures Left(t, k) < Left(s, k)
  {
    StepsAreFew(t);
    if LevelOf(t) < LevelOf(s) {
      LowerLevel(LevelOf(t), LevelOf(s), k);
    }
  }

  lemma {:induction false} CompletesFrom(s: State, ws: seq<Work>, k: nat)
    requires SettingUp(s) && k >= 96 + |Errored(s.cluster.events)|
    requires |ws| > Left(s, k) && AllReady(s, ws)
    ensures Installed(Works(s, ws).cluster)
    decreases ws
  {
    var t := WorkStep(s, ws[0]);
    CallComesNearer(s, ws[0]);
    if Installed(t.cluster) {
      InstalledStays(t, ws[1..]);
    } else {
      LessIsLeft(s, t, k);
      CompletesFrom(t, ws[1..], k);
    }
  }

  /** The controller Deployment, where there is one, holds its finalizer. */
  predicate ControllerGuarded(objs: map<Obj, ObjState>) {
    ControllerDeployment in objs ==> PodPlacement in objs[ControllerDeployment].finalizers
  }

  lemma CallKeepsControllerGuarded(s: State, w: Work)
    requires SettingUp(s) && Ready(s, w) && ControllerGuarded(s.cluster.objs)
    ensures ControllerGuarded(WorkStep(s, w).cluster.objs)
  {
    if s.pc.ReleaseTerminating? {
      TerminatingGoes(s.cluster);
    }
  }

  lemma {:induction false} CallsKeepControllerGuarded(s: State, ws: seq<Work>)
    requires SettingUp(s) && AllReady(s, ws) && ControllerGuarded(s.cluster.objs)
    ensures ControllerGuarded(Works(s, ws).cluster.objs)
    decreases ws
  {
    if ws != [] {
      CallComesNearer(s, ws[0]);
      CallKeepsControllerGuarded(s, ws[0]);
      CallsKeepControllerGuarded(WorkStep(s, ws[0]), ws[1..]);
    }
  }

  /** Left alone for long enough, with calls that succeed and a cluster that is ready, set-up arrives:
      the finalizers are the wanted ones and every object is in place; and there it stays. */
  lemma SetupCompletes(s: State, ws: seq<Work>)
    requires s.pc.Idle? && Undisturbed(s.cluster)
    requires |ws| > 32 * (96 + |Errored(s.cluster.events)|) && AllReady(s, ws)
    ensures var c := Works(s, ws).cluster;
            && Installed(c)
            && WebhookConfig in c.objs && ControllerDeployment in c.objs && Obj(Deployment, PodPlacementWebhook) in c.objs
            && (c.cppc.value.monitor ==> Daemon in c.objs && HandlerDeployment in c.objs)
    ensures ControllerDeployment !in s.cluster.objs ==>
              PodPlacement in Works(s, ws).cluster.objs[ControllerDeployment].finalizers
  {
    var k := 96 + |Errored(s.cluster.events)|;
    LowerLevel(LevelOf(s), 32, k);
    CompletesFrom(s, ws, k);
    AppliedAre(Works(s, ws).cluster.cppc.value.monitor);
    if ControllerDeployment !in s.cluster.objs {
      CallsKeepControllerGuarded(s, ws);
    }
  }

  lemma AppliedAre(monitor: bool)
    ensures var all := ToApply(monitor, true, true);
            && WebhookConfig in all && ControllerDeployment in all && Obj(Deployment, PodPlacementWebhook) in all
            && (monitor ==> Daemon in all && HandlerDeployment in all)
  {
    assert PlacementApplied[10] == ControllerDeployment && PlacementApplied[11] == Obj(Deployment, PodPlacementWebhook);
    assert EnoexecApplied[11] == HandlerDeployment;
  }
}
