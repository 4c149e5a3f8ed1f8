/**
 The lifecycle protocol gets done: every undisturbed sequence of successful calls that is long enough
 tears a deleting configuration down, over as many passes as its finalizers take.
 */
module OperatorTeardown {
  import opened Decimal
  import opened Operator
  import opened OperatorSafety

  // ---------- Undisturbed work ----------

  function Works(s: State, ws: seq<Work>): State
    decreases ws
  {
    if ws == [] then s else Works(WorkStep(s, ws[0]), ws[1..])
  }

  /** The worker deletes the listed events one after another, in any order. */
  predicate PicksWell(s: State, w: Work) {
    s.pc.DeleteErrored? && s.pc.left != {} ==> w.pick in s.pc.left
  }

  predicate AllPickWell(s: State, ws: seq<Work>)
    decreases ws
  {
    ws != [] ==> PicksWell(s, ws[0]) && AllPickWell(WorkStep(s, ws[0]), ws[1..])
  }

  // ---------- Sweeping the events ----------

  /** The worker's own sweep, in every order of the deletions and with any of them failing, does to the
      events what `SweepEvents` does, and blocks when it does. */
  lemma {:induction false} ErroredSwept(s: State, ws: seq<Work>, deletes: nat -> bool)
    requires s.pc.DeleteErrored? && |ws| == |s.pc.left| + 1 && AllPickWell(s, ws)
    requires forall i | 0 <= i < |ws| - 1 :: ws[i].ok == deletes(ws[i].pick)
    ensures Works(s, ws) ==
            s.(cluster := s.cluster.(events := s.cluster.events - (set e | e in s.pc.left && deletes(e))),
               pc := if s.pc.blocked then Idle else FetchHandler(s.pc.cause))
    decreases ws
  {
    var left, next, rest := s.pc.left, WorkStep(s, ws[0]), ws[1..];
    if left == {} {
      assert rest == [];
      assert s.cluster.events - (set e | e in left && deletes(e)) == s.cluster.events;
    } else {
      var e := ws[0].pick;
      assert next.pc.left == left - {e};
      ErroredSwept(next, rest, deletes);
      assert next.cluster.events - (set x | x in left - {e} && deletes(x)) ==
             s.cluster.events - (set x | x in left && deletes(x));
    }
  }

  lemma ListedAndSwept(s: State, ws: seq<Work>, deletes: nat -> bool)
    requires s.pc.ListEvents? && |ws| == |Errored(s.cluster.events)| + 2 && ws[0].ok && AllPickWell(s, ws)
    requires forall i | 0 < i < |ws| - 1 :: ws[i].ok == deletes(ws[i].pick)
    ensures Works(s, ws) ==
            s.(cluster := s.cluster.(events := s.cluster.events - Sweepable(s.cluster.events, deletes)),
               pc := if NonErrored(s.cluster.events) != {} then Idle else FetchHandler(s.pc.cause))
  {
    var next := WorkStep(s, ws[0]);
    assert next.pc.left == Errored(s.cluster.events);
    ErroredSwept(next, ws[1..], deletes);
    assert (set e | e in next.pc.left && deletes(e)) == Sweepable(s.cluster.events, deletes);
  }

  // ---------- What a teardown keeps ----------

  /** Nothing of what the deletion waits for is left: gated pods, configurations, unprocessed events,
      and other people's finalizers on the configuration, the webhook Service and the DaemonSet. */
  predicate NothingToWaitFor(c: Cluster) {
    && c.cppc.Some? && c.cppc.value.deleting
    && PodPlacement in c.cppc.value.finalizers && c.cppc.value.finalizers <= {PodPlacement, NoPpc, ExecError}
    && c.gated == {} && c.ppcs == {} && NonErrored(c.events) == {}
    && (WebhookService in c.objs ==> c.objs[WebhookService].finalizers == {})
    && (Daemon in c.objs ==> c.objs[Daemon].finalizers == {})
  }

  predicate EnoexecFits(s: State)
    requires InEnoexec(s.pc)
  {
    && ExecError in s.local.finalizers && s.pc.cause == Deletion
    && match s.pc
       case DeleteDaemon(todo, failed, _) => !failed && |todo| <= 6 && (Daemon in s.cluster.objs ==> Daemon in todo)
       case DeleteErrored(_, blocked, _) => !blocked
       case DeleteHandler(todo, failed, _) => !failed && |todo| <= 8
       case CheckDaemon(_) => Daemon !in s.cluster.objs
       case _ => true
  }

  predicate DeletionFits(s: State) {
    && ExecError !in s.local.finalizers
    && if s.pc.ReportStatus? then true
       else if s.pc.CheckPpcs? || s.pc.ReleaseNoPpc? then NoPpc in s.local.finalizers
       else
         && NoPpc !in s.local.finalizers && !s.pc.DeleteController?
         && if s.pc.DeleteWebhook?
            then !s.pc.failed && |s.pc.todo| <= 6 && (WebhookService in s.cluster.objs ==> WebhookService in s.pc.todo)
            else WebhookService !in s.cluster.objs
  }

  /** Where an undisturbed teardown can be. */
  predicate TearingDown(s: State) {
    && NothingToWaitFor(s.cluster)
    && (s.pc.Idle?
        || (&& s.cluster.cppc == Some(s.local)
            && ((InEnoexec(s.pc) && EnoexecFits(s)) || (InDeletion(s.pc) && DeletionFits(s)))))
  }

  // ---------- What it uses up ----------

  function IdleRank(c: Cluster, finalizers: set<Finalizer>): nat {
    if ExecError in finalizers then 60 + |Errored(c.events)| else if NoPpc in finalizers then 25 else 21
  }

  /** An upper bound on the calls that are left. */
  function Rank(s: State): nat {
    match s.pc
    case Idle => if s.cluster.cppc.Some? then IdleRank(s.cluster, s.cluster.cppc.value.finalizers) else 0
    case DeleteDaemon(todo, _, _) => 46 + |Errored(s.cluster.events)| + |todo|
    case CheckDaemon(_) => 45 + |Errored(s.cluster.events)|
    case ListEvents(_) => 44 + |Errored(s.cluster.events)|
    case DeleteErrored(left, _, _) => 43 + |left|
    case FetchHandler(_) => 42
    case ReleaseHandler(_) => 41
    case DeleteHandler(todo, _, _) => 31 + |todo|
    case ReleaseExecError(_) => 30
    case ReportStatus => if NoPpc in s.local.finalizers then 24 else 20
    case CheckPpcs => 23
    case ReleaseNoPpc => 22
    case DeleteWebhook(todo, _) => 7 + |todo|
    case CheckService => 6
    case CheckPods => 5
    case FetchController => 4
    case ReleaseController => 3
    case ReleasePodPlacement => 2
    case _ => 0
  }

  /** The step removes the configuration, or leads on and uses something up. */
  predicate GetsOn(s: State, t: State) {
    if t.cluster.cppc.None? then t.pc.DeleteController? else TearingDown(t) && Rank(t) < Rank(s)
  }

  lemma IdleGetsOn(s: State, w: Work)
    requires TearingDown(s) && s.pc.Idle? && w.ok
    ensures GetsOn(s, SetupStep(s, w))
  {
    assert DaemonObjects[5] == Daemon;
  }

  lemma SweepGetsOn(s: State, w: Work)
    requires TearingDown(s) && (s.pc.DeleteDaemon? || s.pc.DeleteHandler?) && w.ok
    ensures GetsOn(s, EnoexecStep(s, w))
  {
    if s.pc.todo != [] {
      DeletedIsFewer(s.cluster.objs, s.pc.todo[0]);
      TailMembers(s.pc.todo);
    }
  }

  lemma ListingGetsOn(s: State, w: Work)
    requires TearingDown(s) && (s.pc.CheckDaemon? || s.pc.ListEvents?) && w.ok
    ensures GetsOn(s, EnoexecStep(s, w))
  {
  }

  lemma EventsGetOn(s: State, w: Work)
    requires TearingDown(s) && s.pc.DeleteErrored? && w.ok && PicksWell(s, w)
    ensures GetsOn(s, EnoexecStep(s, w))
  {
    assert NonErrored(s.cluster.events - {w.pick}) <= NonErrored(s.cluster.events);
  }

  lemma HandlerGetsOn(s: State, w: Work)
    requires TearingDown(s) && (s.pc.FetchHandler? || s.pc.ReleaseHandler?) && w.ok
    ensures GetsOn(s, EnoexecStep(s, w))
  {
  }

  lemma ReleaseExecErrorGetsOn(s: State, w: Work)
    requires TearingDown(s) && s.pc.ReleaseExecError? && w.ok
    ensures GetsOn(s, EnoexecStep(s, w))
  {
    assert PodPlacement in s.local.finalizers - {ExecError};
  }

  lemma UpdatesGetOn(s: State, w: Work)
    requires TearingDown(s) && (s.pc.ReportStatus? || s.pc.CheckPpcs? || s.pc.ReleaseNoPpc?) && w.ok
    ensures GetsOn(s, DeletionStep(s, w))
  {
    assert PodPlacement in s.local.finalizers - {NoPpc};
    assert WebhookObjects[1] == WebhookService;
  }

  lemma WebhookGetsOn(s: State, w: Work)
    requires TearingDown(s) && s.pc.DeleteWebhook? && w.ok
    ensures GetsOn(s, DeletionStep(s, w))
  {
    if s.pc.todo != [] {
      DeletedIsFewer(s.cluster.objs, s.pc.todo[0]);
      TailMembers(s.pc.todo);
    }
  }

  lemma ChecksGetOn(s: State, w: Work)
    requires TearingDown(s) && (s.pc.CheckService? || s.pc.CheckPods? || s.pc.FetchController? || s.pc.ReleaseController?) && w.ok
    ensures GetsOn(s, DeletionStep(s, w))
  {
  }

  lemma LastGetsOn(s: State, w: Work)
    requires TearingDown(s) && s.pc.ReleasePodPlacement? && w.ok
    ensures GetsOn(s, DeletionStep(s, w))
  {
    assert s.local.finalizers - {PodPlacement} == {};
  }

  lemma CallGetsOn(s: State, w: Work)
    requires TearingDown(s) && w.ok && PicksWell(s, w)
    ensures GetsOn(s, WorkStep(s, w))
  {
    if s.pc.Idle? {
      IdleGetsOn(s, w);
    } else if s.pc.DeleteDaemon? || s.pc.DeleteHandler? {
      SweepGetsOn(s, w);
    } else if s.pc.CheckDaemon? || s.pc.ListEvents? {
      ListingGetsOn(s, w);
    } else if s.pc.DeleteErrored? {
      EventsGetOn(s, w);
    } else if s.pc.FetchHandler? || s.pc.ReleaseHandler? {
      HandlerGetsOn(s, w);
    } else if s.pc.ReleaseExecError? {
      ReleaseExecErrorGetsOn(s, w);
    } else if s.pc.ReportStatus? || s.pc.CheckPpcs? || s.pc.ReleaseNoPpc? {
      UpdatesGetOn(s, w);
    } else if s.pc.DeleteWebhook? {
      WebhookGetsOn(s, w);
    } else if s.pc.ReleasePodPlacement? {
      LastGetsOn(s, w);
    } else {
      ChecksGetOn(s, w);
    }
  }

  lemma {:induction false} GoneStays(s: State, ws: seq<Work>)
    requires s.cluster.cppc.None? && (s.pc.Idle? || s.pc.DeleteController?)
    ensures Works(s, ws).cluster.cppc.None?
    decreases ws
  {
    if ws != [] {
      GoneStays(WorkStep(s, ws[0]), ws[1..]);
    }
  }

  /** Undisturbed, every sequence of successful calls that is long enough removes a deleting
      configuration, whichever of its finalizers it still holds and wherever the worker begins. */
  lemma {:induction false} TeardownCompletes(s: State, ws: seq<Work>)
    requires TearingDown(s) && |ws| > Rank(s)
    requires AllPickWell(s, ws) && forall i | 0 <= i < |ws| :: ws[i].ok
    ensures Works(s, ws).cluster.cppc.None?
    decreases ws
  {
    var t := WorkStep(s, ws[0]);
    CallGetsOn(s, ws[0]);
    if t.cluster.cppc.None? {
      GoneStays(t, ws[1..]);
    } else {
      TeardownCompletes(t, ws[1..]);
    }
  }
}
