/**
 The operator's lifecycle protocol (internal/controller/operator/
 clusterpodplacementconfig_controller.go): `Reconcile`, `handleDelete` and `handleEnoexecDelete` of
 the single worker, one API call per step, against admissions, the pod controller, the exec-error
 daemon, garbage collection and users, all of which may act between any two calls.
 */
module Operator {
  import opened Decimal

  // ---------- The cluster ----------

  datatype Kind =
    | Service | Deployment | DaemonSet | Role | RoleBinding | ClusterRole | ClusterRoleBinding
    | ServiceAccount | WebhookConfiguration

  datatype Name = PodPlacementController | PodPlacementWebhook | EnoexecHandler | EnoexecDaemon | PodMutatingWebhook

  datatype Obj = Obj(kind: Kind, name: Name)

  datatype Finalizer = PodPlacement | NoPpc | ExecError | Foreign

  datatype ObjState = ObjState(deleting: bool, finalizers: set<Finalizer>)

  /** The ClusterPodPlacementConfig; `monitor` is the exec-error monitor plugin, `version` the
      resource version that guards updates. */
  datatype Cppc = Cppc(version: nat, deleting: bool, finalizers: set<Finalizer>, monitor: bool)

  /** `gated` are the pods that hold the scheduling gate (all of them pending), `events` the
      ENoExecEvents with whether they are marked as errored. */
  datatype Cluster = Cluster(
    cppc: Option<Cppc>,
    clock: nat,
    objs: map<Obj, ObjState>,
    ppcs: set<nat>,
    gated: set<nat>,
    events: map<nat, bool>)

  const WebhookConfig := Obj(WebhookConfiguration, PodMutatingWebhook)
  const WebhookService := Obj(Service, PodPlacementWebhook)
  const ControllerDeployment := Obj(Deployment, PodPlacementController)
  const HandlerDeployment := Obj(Deployment, EnoexecHandler)
  const DaemonRole := Obj(Role, EnoexecDaemon)
  const DaemonRoleBinding := Obj(RoleBinding, EnoexecDaemon)
  const Daemon := Obj(DaemonSet, EnoexecDaemon)

  /** The objects that let the daemon act; nothing but the operator puts finalizers on them. */
  predicate IsDaemonRbac(o: Obj) {
    o.name == EnoexecDaemon && (o.kind == Role || o.kind == RoleBinding || o.kind == ClusterRole || o.kind == ClusterRoleBinding)
  }

  // The deletion lists, in the order of the code.

  const DaemonObjects: seq<Obj> := [
    Obj(ClusterRole, EnoexecDaemon), Obj(ClusterRoleBinding, EnoexecDaemon), DaemonRole,
    DaemonRoleBinding, Obj(ServiceAccount, EnoexecDaemon), Daemon]

  const HandlerObjects: seq<Obj> := [
    HandlerDeployment, Obj(Role, EnoexecHandler), Obj(RoleBinding, EnoexecHandler),
    Obj(ClusterRole, EnoexecHandler), Obj(ClusterRoleBinding, EnoexecHandler),
    Obj(ServiceAccount, EnoexecHandler), Obj(ServiceAccount, EnoexecDaemon), Obj(Service, EnoexecHandler)]

  const WebhookObjects: seq<Obj> := [
    WebhookConfig, WebhookService, Obj(Deployment, PodPlacementWebhook), Obj(ClusterRole, PodPlacementWebhook),
    Obj(ClusterRoleBinding, PodPlacementWebhook), Obj(ServiceAccount, PodPlacementWebhook)]

  const ControllerObjects: seq<Obj> := [
    Obj(Service, PodPlacementController), ControllerDeployment, Obj(ClusterRole, PodPlacementController),
    Obj(ClusterRoleBinding, PodPlacementController), Obj(Role, PodPlacementController),
    Obj(RoleBinding, PodPlacementController), Obj(ServiceAccount, PodPlacementController)]

  // The objects `reconcile` applies, in the order of the code.

  const PlacementApplied: seq<Obj> := [
    Obj(Service, PodPlacementController), WebhookService, Obj(ClusterRole, PodPlacementController),
    Obj(ClusterRole, PodPlacementWebhook), Obj(Role, PodPlacementController),
    Obj(ServiceAccount, PodPlacementWebhook), Obj(ServiceAccount, PodPlacementController),
    Obj(ClusterRoleBinding, PodPlacementController), Obj(RoleBinding, PodPlacementController),
    Obj(ClusterRoleBinding, PodPlacementWebhook), ControllerDeployment, Obj(Deployment, PodPlacementWebhook)]

  const EnoexecApplied: seq<Obj> := [
    Obj(Service, EnoexecHandler), Obj(ServiceAccount, EnoexecHandler), Obj(ServiceAccount, EnoexecDaemon),
    Obj(ClusterRole, EnoexecHandler), Obj(Role, EnoexecHandler), Obj(ClusterRole, EnoexecDaemon), DaemonRole,
    Obj(ClusterRoleBinding, EnoexecHandler), Obj(RoleBinding, EnoexecHandler),
    Obj(ClusterRoleBinding, EnoexecDaemon), DaemonRoleBinding, HandlerDeployment]

  function ToApply(monitor: bool, canDeployWebhook: bool, includeDaemon: bool): seq<Obj> {
    PlacementApplied
    + (if monitor then EnoexecApplied else [])
    + (if canDeployWebhook then [WebhookConfig] else [])
    + (if monitor && includeDaemon then [Daemon] else [])
  }

  // ---------- Counting and deleting errored events ----------

  const ErrorLabel := "multiarch.openshift.io/enoexec-event-error"

  datatype ListedEvent = ListedEvent(id: nat, labels: Option<map<string, string>>)

  predicate IsErrored(e: ListedEvent) {
    e.labels.Some? && ErrorLabel in e.labels.value
  }

  /** `deleteErroredENoExecEvents`: every errored event of the list is deleted (a failing delete is
      only logged), the others are counted, and the count blocks exactly when one was listed. */
  method DeleteErroredENoExecEvents(listed: seq<ListedEvent>, deletes: nat -> bool)
    returns (nonErrored: nat, errored: nat, deleted: set<nat>)
    ensures nonErrored + errored == |listed|
    ensures nonErrored > 0 <==> exists i | 0 <= i < |listed| :: !IsErrored(listed[i])
    ensures errored == |listed| <==> forall i | 0 <= i < |listed| :: IsErrored(listed[i])
    ensures forall e :: e in deleted <==> exists i | 0 <= i < |listed| :: IsErrored(listed[i]) && deletes(e) && listed[i].id == e
  {
    nonErrored, errored, deleted := 0, 0, {};
    for k := 0 to |listed|
      invariant nonErrored + errored == k
      invariant nonErrored > 0 <==> exists i | 0 <= i < k :: !IsErrored(listed[i])
      invariant forall e :: e in deleted <==> exists i | 0 <= i < k :: IsErrored(listed[i]) && deletes(e) && listed[i].id == e
    {
      var event := listed[k];
      if event.labels.None? {
        nonErrored := nonErrored + 1;
        continue;
      }
      if ErrorLabel !in event.labels.value {
        nonErrored := nonErrored + 1;
        continue;
      }
      errored := errored + 1;
      if deletes(event.id) {
        deleted := deleted + {event.id};
      }
    }
  }

  // ---------- The API server ----------

  /** A delete removes the object, or only marks it while finalizers hold it. */
  function Deleted(objs: map<Obj, ObjState>, o: Obj): map<Obj, ObjState> {
    if o !in objs then objs
    else if objs[o].finalizers == {} then objs - {o}
    else objs[o := objs[o].(deleting := true)]
  }

  /** The controller Deployment is created with its finalizer; an existing object keeps its own. */
  function Applied(objs: map<Obj, ObjState>, o: Obj): map<Obj, ObjState> {
    if o in objs then objs
    else objs[o := ObjState(false, if o == ControllerDeployment then {PodPlacement} else {})]
  }

  /** Dropping a finalizer releases an object that is being deleted once none is left. */
  function Released(objs: map<Obj, ObjState>, o: Obj, f: Finalizer): map<Obj, ObjState> {
    if o !in objs then objs
    else
      var left := objs[o].finalizers - {f};
      if objs[o].deleting && left == {} then objs - {o} else objs[o := objs[o].(finalizers := left)]
  }

  /** Finalizers cannot be added once the deletion timestamp is set. */
  function Guarded(objs: map<Obj, ObjState>, o: Obj, f: Finalizer): map<Obj, ObjState> {
    if o in objs && !objs[o].deleting then objs[o := objs[o].(finalizers := objs[o].finalizers + {f})] else objs
  }

  /** Store a new revision of the configuration; it disappears when its last finalizer goes. */
  function Stored(c: Cluster, v: Cppc): Cluster {
    c.(clock := c.clock + 1,
       cppc := if v.deleting && v.finalizers == {} then None else Some(v.(version := c.clock)))
  }

  // ---------- The environment ----------

  datatype EnvEvent =
    | GatePod(pod: nat)
    | UngatePod(pod: nat)
    | CreatePpc(ppc: nat)
    | DeletePpc(ppc: nat)
    | CreateEvent(event: nat)
    | MarkErrored(event: nat)
    | RemoveEvent(event: nat)
    | CreateCppc(monitor: bool)
    | DeleteCppc
    | SetMonitor(monitor: bool)
    | AddForeign
    | RemoveForeign
    | DeleteObject(obj: Obj)
    | AddForeignTo(obj: Obj)
    | RemoveForeignFrom(obj: Obj)

  /** One step of anything but the operator. The API server may gate a pod as long as the webhook
      Service exists, whatever its view of the webhook configuration; the daemon may create an event
      as long as its Role and RoleBinding exist. */
  function EnvStep(c: Cluster, e: EnvEvent): Cluster {
    match e
    case GatePod(pod) => if WebhookService in c.objs then c.(gated := c.gated + {pod}) else c
    case UngatePod(pod) => c.(gated := c.gated - {pod})
    case CreatePpc(ppc) => if c.cppc.Some? then c.(ppcs := c.ppcs + {ppc}) else c
    case DeletePpc(ppc) => c.(ppcs := c.ppcs - {ppc})
    case CreateEvent(event) =>
      if DaemonRole in c.objs && DaemonRoleBinding in c.objs && event !in c.events
      then c.(events := c.events[event := false]) else c
    case MarkErrored(event) => if event in c.events then c.(events := c.events[event := true]) else c
    case RemoveEvent(event) => c.(events := c.events - {event})
    case CreateCppc(monitor) => if c.cppc.None? then Stored(c, Cppc(0, false, {}, monitor)) else c
    case DeleteCppc => if c.cppc.Some? && !c.cppc.value.deleting then Stored(c, c.cppc.value.(deleting := true)) else c
    case SetMonitor(monitor) => if c.cppc.Some? then Stored(c, c.cppc.value.(monitor := monitor)) else c
    case AddForeign =>
      if c.cppc.Some? && !c.cppc.value.deleting
      then Stored(c, c.cppc.value.(finalizers := c.cppc.value.finalizers + {Foreign})) else c
    case RemoveForeign =>
      if c.cppc.Some? then Stored(c, c.cppc.value.(finalizers := c.cppc.value.finalizers - {Foreign})) else c
    case DeleteObject(obj) => c.(objs := Deleted(c.objs, obj))
    case AddForeignTo(obj) => if IsDaemonRbac(obj) then c else c.(objs := Guarded(c.objs, obj, Foreign))
    case RemoveForeignFrom(obj) => c.(objs := Released(c.objs, obj, Foreign))
  }

  // ---------- The operator ----------

  /** Why the exec-error teardown runs: the configuration is deleted, or the plugin is disabled. */
  datatype Cause = Deletion | Disable

  /** The next API call of the worker. */
  datatype Pc =
    | Idle
    // Reconcile and reconcile
    | AddPodPlacement
    | ListPpcs
    | SetNoPpc(add: bool)
    | AddExecError
    | GetHandler
    | GuardHandler
    | GetController
    | ReleaseTerminating
    | GatherStatus
    | BeginApply
    | CheckObjects(canDeployWebhook: bool)
    | Applying(todo: seq<Obj>)
    // handleEnoexecDelete
    | DeleteDaemon(todo: seq<Obj>, failed: bool, cause: Cause)
    | CheckDaemon(cause: Cause)
    | ListEvents(cause: Cause)
    | DeleteErrored(left: set<nat>, blocked: bool, cause: Cause)
    | FetchHandler(cause: Cause)
    | ReleaseHandler(cause: Cause)
    | DeleteHandler(todo: seq<Obj>, failed: bool, cause: Cause)
    | ReleaseExecError(cause: Cause)
    // handleDelete
    | ReportStatus
    | CheckPpcs
    | ReleaseNoPpc
    | DeleteWebhook(todo: seq<Obj>, failed: bool)
    | CheckService
    | CheckPods
    | FetchController
    | ReleaseController
    | ReleasePodPlacement
    | DeleteController(todo: seq<Obj>)

  /** `local` is the copy of the configuration the pass works on. */
  datatype State = State(cluster: Cluster, pc: Pc, local: Cppc)

  /** One step of the worker: whether the call succeeds, and what it reads besides. */
  datatype Work = Work(ok: bool, canDeployWebhook: bool, includeDaemon: bool, pick: nat)

  function Stop(s: State): State {
    s.(pc := Idle)
  }

  /** `r.Update` on the configuration: refused unless the copy is the stored revision. */
  predicate CanUpdate(s: State, ok: bool) {
    ok && s.cluster.cppc.Some? && s.cluster.cppc.value.version == s.local.version
  }

  function Updated(s: State, finalizers: set<Finalizer>): State {
    var v := s.local.(finalizers := finalizers);
    s.(cluster := Stored(s.cluster, v), local := v.(version := s.cluster.clock))
  }

  /** Where `handleEnoexecDelete` begins; it is skipped when the finalizer was never added. */
  function EnterEnoexec(local: Cppc, cause: Cause): Pc {
    if ExecError in local.finalizers then DeleteDaemon(DaemonObjects, false, cause) else LeaveEnoexec(cause)
  }

  function LeaveEnoexec(cause: Cause): Pc {
    if cause == Deletion then ReportStatus else BeginApply
  }

  function WithObjs(s: State, objs: map<Obj, ObjState>, pc: Pc): State {
    s.(cluster := s.cluster.(objs := objs), pc := pc)
  }

  /** `Reconcile` up to `dependentsStatusToClusterPodPlacementConfig`, and `reconcile`. */
  function SetupStep(s: State, w: Work): State {
    var c := s.cluster;
    match s.pc
    case Idle =>
      if !w.ok || c.cppc.None? then s
      else
        var v := c.cppc.value;
        var t := s.(local := v);
        if v.deleting && PodPlacement !in v.finalizers then s
        else if v.deleting then t.(pc := EnterEnoexec(v, Deletion))
        else if PodPlacement !in v.finalizers then t.(pc := AddPodPlacement)
        else t.(pc := ListPpcs)
    case AddPodPlacement =>
      if CanUpdate(s, w.ok) then Stop(Updated(s, s.local.finalizers + {PodPlacement})) else Stop(s)
    case ListPpcs =>
      if !w.ok then Stop(s)
      else if (c.ppcs != {}) != (NoPpc in s.local.finalizers) then s.(pc := SetNoPpc(c.ppcs != {}))
      else if !s.local.monitor then s.(pc := GetController)
      else if ExecError !in s.local.finalizers then s.(pc := AddExecError)
      else s.(pc := GetHandler)
    case SetNoPpc(add) =>
      if CanUpdate(s, w.ok)
      then Stop(Updated(s, if add then s.local.finalizers + {NoPpc} else s.local.finalizers - {NoPpc})) else Stop(s)
    case AddExecError =>
      if CanUpdate(s, w.ok) then Stop(Updated(s, s.local.finalizers + {ExecError})) else Stop(s)
    case GetHandler =>
      if !w.ok then Stop(s)
      else if HandlerDeployment in c.objs && ExecError !in c.objs[HandlerDeployment].finalizers then s.(pc := GuardHandler)
      else s.(pc := GetController)
    case GuardHandler => if w.ok then WithObjs(s, Guarded(c.objs, HandlerDeployment, ExecError), Idle) else Stop(s)
    case GetController =>
      if !w.ok then Stop(s)
      else if ControllerDeployment in c.objs && c.objs[ControllerDeployment].deleting
              && PodPlacement in c.objs[ControllerDeployment].finalizers then s.(pc := ReleaseTerminating)
      else s.(pc := GatherStatus)
    case ReleaseTerminating =>
      if w.ok then WithObjs(s, Released(c.objs, ControllerDeployment, PodPlacement), GatherStatus) else Stop(s)
    case GatherStatus =>
      if !w.ok then Stop(s) else s.(pc := if s.local.monitor then BeginApply else EnterEnoexec(s.local, Disable))
    case BeginApply =>
      WithObjs(s, if !w.canDeployWebhook && w.ok then Deleted(c.objs, WebhookConfig) else c.objs,
               CheckObjects(w.canDeployWebhook))
    case CheckObjects(canDeployWebhook) =>
      if !w.ok then Stop(s)
      else s.(pc := Applying(ToApply(s.local.monitor, canDeployWebhook, w.includeDaemon)))
    case Applying(todo) =>
      if todo == [] then
        if CanUpdate(s, w.ok) then Stop(Updated(s, s.local.finalizers)) else Stop(s)
      else WithObjs(s, if w.ok then Applied(c.objs, todo[0]) else c.objs, Applying(todo[1..]))
    case _ => s
  }

  function NonErrored(events: map<nat, bool>): set<nat> {
    set e | e in events && !events[e]
  }

  function Errored(events: map<nat, bool>): set<nat> {
    set e | e in events && events[e]
  }

  /** The API server's list of the events, in any order. */
  ghost predicate IsListOf(listed: seq<ListedEvent>, events: map<nat, bool>) {
    && (forall i | 0 <= i < |listed| :: listed[i].id in events && (events[listed[i].id] <==> IsErrored(listed[i])))
    && (forall e | e in events :: exists i | 0 <= i < |listed| :: listed[i].id == e)
  }

  /** The errored events that a sweep with these outcomes deletes. */
  function Sweepable(events: map<nat, bool>, deletes: nat -> bool): set<nat> {
    set e | e in events && events[e] && deletes(e)
  }

  /** Listing and sweeping the events: it blocks exactly when one is not errored. */
  method SweepEvents(events: map<nat, bool>, listed: seq<ListedEvent>, deletes: nat -> bool)
    returns (blocked: bool, left: map<nat, bool>)
    requires IsListOf(listed, events)
    ensures blocked <==> NonErrored(events) != {}
    ensures left == events - Sweepable(events, deletes)
  {
    var nonErrored, errored, deleted := DeleteErroredENoExecEvents(listed, deletes);
    blocked := nonErrored > 0;
    left := events - deleted;
    assert deleted == Sweepable(events, deletes);
    if blocked {
      var i :| 0 <= i < |listed| && !IsErrored(listed[i]);
      assert listed[i].id in NonErrored(events);
    }
  }

  /** `handleEnoexecDelete` */
  function EnoexecStep(s: State, w: Work): State {
    var c := s.cluster;
    match s.pc
    case DeleteDaemon(todo, failed, cause) =>
      if todo == [] then s.(pc := if failed then Idle else CheckDaemon(cause))
      else WithObjs(s, if w.ok then Deleted(c.objs, todo[0]) else c.objs, DeleteDaemon(todo[1..], failed || !w.ok, cause))
    case CheckDaemon(cause) => if !w.ok || Daemon in c.objs then Stop(s) else s.(pc := ListEvents(cause))
    case ListEvents(cause) =>
      if !w.ok then Stop(s)
      else s.(pc := DeleteErrored(Errored(c.events), NonErrored(c.events) != {}, cause))
    case DeleteErrored(left, blocked, cause) =>
      if left == {} then s.(pc := if blocked then Idle else FetchHandler(cause))
      else if w.pick !in left then s
      else
        s.(cluster := if w.ok then c.(events := c.events - {w.pick}) else c,
           pc := DeleteErrored(left - {w.pick}, blocked, cause))
    case FetchHandler(cause) =>
      if !w.ok then Stop(s)
      else if HandlerDeployment in c.objs && ExecError in c.objs[HandlerDeployment].finalizers
      then s.(pc := ReleaseHandler(cause))
      else s.(pc := DeleteHandler(HandlerObjects, false, cause))
    case ReleaseHandler(cause) =>
      if w.ok then WithObjs(s, Released(c.objs, HandlerDeployment, ExecError), DeleteHandler(HandlerObjects, false, cause))
      else Stop(s)
    case DeleteHandler(todo, failed, cause) =>
      if todo == [] then s.(pc := if failed then Idle else ReleaseExecError(cause))
      else WithObjs(s, if w.ok then Deleted(c.objs, todo[0]) else c.objs, DeleteHandler(todo[1..], failed || !w.ok, cause))
    case ReleaseExecError(cause) =>
      if CanUpdate(s, w.ok)
      then Updated(s, s.local.finalizers - {ExecError}).(pc := LeaveEnoexec(cause)) else Stop(s)
    case _ => s
  }

  /** `handleDelete` after the exec-error teardown. */
  function DeletionStep(s: State, w: Work): State {
    var c := s.cluster;
    match s.pc
    case ReportStatus =>
      var t := if CanUpdate(s, w.ok) then Updated(s, s.local.finalizers) else s;
      t.(pc := if NoPpc in s.local.finalizers then CheckPpcs else DeleteWebhook(WebhookObjects, false))
    case CheckPpcs => if !w.ok || c.ppcs != {} then Stop(s) else s.(pc := ReleaseNoPpc)
    case ReleaseNoPpc =>
      if CanUpdate(s, w.ok) then Stop(Updated(s, s.local.finalizers - {NoPpc})) else Stop(s)
    case DeleteWebhook(todo, failed) =>
      if todo == [] then s.(pc := if failed then Idle else CheckService)
      else WithObjs(s, if w.ok then Deleted(c.objs, todo[0]) else c.objs, DeleteWebhook(todo[1..], failed || !w.ok))
    case CheckService => if !w.ok || WebhookService in c.objs then Stop(s) else s.(pc := CheckPods)
    case CheckPods => if !w.ok || c.gated != {} then Stop(s) else s.(pc := FetchController)
    case FetchController =>
      if !w.ok then Stop(s)
      else if ControllerDeployment in c.objs && PodPlacement in c.objs[ControllerDeployment].finalizers
      then s.(pc := ReleaseController)
      else s.(pc := ReleasePodPlacement)
    case ReleaseController =>
      if w.ok then WithObjs(s, Released(c.objs, ControllerDeployment, PodPlacement), ReleasePodPlacement) else Stop(s)
    case ReleasePodPlacement =>
      if CanUpdate(s, w.ok)
      then Updated(s, s.local.finalizers - {PodPlacement}).(pc := DeleteController(ControllerObjects)) else Stop(s)
    case DeleteController(todo) =>
      if todo == [] then Stop(s)
      else WithObjs(s, if w.ok then Deleted(c.objs, todo[0]) else c.objs, DeleteController(todo[1..]))
    case _ => s
  }

  predicate InEnoexec(pc: Pc) {
    || pc.DeleteDaemon? || pc.CheckDaemon? || pc.ListEvents? || pc.DeleteErrored?
    || pc.FetchHandler? || pc.ReleaseHandler? || pc.DeleteHandler? || pc.ReleaseExecError?
  }

  predicate InDeletion(pc: Pc) {
    || pc.ReportStatus? || pc.CheckPpcs? || pc.ReleaseNoPpc? || pc.DeleteWebhook? || pc.CheckService? || pc.CheckPods?
    || pc.FetchController? || pc.ReleaseController? || pc.ReleasePodPlacement? || pc.DeleteController?
  }

  function WorkStep(s: State, w: Work): State {
    if InEnoexec(s.pc) then EnoexecStep(s, w)
    else if InDeletion(s.pc) then DeletionStep(s, w)
    else SetupStep(s, w)
  }

  /** The operator may also crash between any two calls and begin again. */
  datatype Event = Env(env: EnvEvent) | Op(work: Work) | Crash

  function Step(s: State, e: Event): State {
    match e
    case Env(env) => s.(cluster := EnvStep(s.cluster, env))
    case Op(work) => WorkStep(s, work)
    case Crash => Stop(s)
  }

  function Run(s: State, events: seq<Event>): State
    decreases events
  {
    if events == [] then s else Step(Run(s, events[..|events| - 1]), events[|events| - 1])
  }

  /** Nothing installed, nothing configured. */
  function Init(): State {
    State(Cluster(None, 1, map[], {}, {}, map[]), Idle, Cppc(0, false, {}, false))
  }
}
