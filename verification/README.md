# Verified model of the multiarch tuning operator

The operator makes pods of a Kubernetes cluster with mixed CPU architectures land on nodes that can
run their images. A mutating webhook puts a scheduling gate on new pods; the pod placement
controller inspects the images of every gated pod, narrows the pod's node affinity to the common
architectures, adds the preferences of the matching `PodPlacementConfig`s and of the
`ClusterPodPlacementConfig`, and takes the gate off. CEL rules in a `PodPlacementConfig` can decide
the architecture instead. An operator deploys all this and takes it down again without leaving a
gated pod behind, and a daemon reports exec-format errors found by a generated eBPF program.

This project models these parts in Dafny and proves what they promise. `dafny verify dfyconfig.toml`
checks everything.

## How the model is organised

| file | what it holds |
|---|---|
| `Decimal`, `Keys`, `StringSets` | `strconv.ParseInt` and `%d`; the label, annotation and gate keys; sorted string sets |
| `Kubernetes` | scheduling directives, which nodes they admit, the score of a node, and the rule for updating a gated pod |
| `PodModel`, `PodObject` | the pod as a value with one function per operation, and as an object updated in place |
| `Configs` | the two configuration kinds, sorting by priority, and the admission of priorities over whole request histories |
| `CelEvaluator`, `Placement` | the shared LRU cache of compiled expressions, rule evaluation, and the architecture override |
| `Preferences`, `Affinity` | preferred terms and the audit-trail annotation; the loops of `pod_model.go` |
| `Reconciler`, `Runs`, `Retries`, `PreferenceRuns` | one pass of the controller, and runs of any number of passes |
| `Webhook` | admission, its agreement with the controller, and the query for gated pods |
| `Promises`, `PreferencePromises` | what admission and passes promise, with every condition written out on the pod, its containers, the configurations and the rules' results |
| `ImageReference`, `ImageCache`, `CacheInterleaving` | reference normalisation, the architecture cache, and the cache under concurrency |
| `Bpf`, `Tracepoint`, `TracepointRun` | an eBPF machine, the generated program, and its execution over all kernel states |
| `Operator`, `OperatorSafety`, `OperatorDraining`, `OperatorWaiting`, `OperatorSweeps` | the lifecycle as interleaved API calls, its invariant, and over whole runs what it waits for and in which order it deletes and releases |
| `OperatorTeardown`, `OperatorCleanup`, `OperatorSetup` | a teardown that completes, what it leaves behind, and a set-up that completes |

Objects that the code updates in place (the pod, the CEL evaluator, the cache proxy, the tracepoint's
program spec) are classes; each method is proved equal to a function on values, and the main results
are about those functions, over all runs.

A pass of the controller (`Reconciler.Pass`) records everything the pass sees: the configurations
listed, the results of their rules, the outcome of the inspection, and whether its update fails for a
reason of its own. The API server's rule for updates of gated pods is part of the run: an update that
breaks it is refused and leaves the stored pod as it was. Runs quantify over arbitrary sequences of
passes, so configurations, images and errors may change between any two.

## What turned out not to hold as stated

* **A cached answer need not match the current credentials**, for two unrelated reasons. The key covers
  the pod's credentials only, and two pods whose credentials expand to the same map may use different
  auth files: `ImageCache.LooseIsUnsafe` builds such a pair from any matching registry glob that is not
  backed by an entry of its own, and `ImageCache.KeyIsSafeIff` shows that these globs are the only
  cause. And storing a global secret is two steps, so an answer made with the old one can be inserted
  after the purge (`CacheInterleaving.StaleAfterPurge`), or hit before it
  (`CacheInterleaving.StaleBeforePurge`). Every entry stays right for the secret it was made with; where
  no globs interfere the hits of a run are right if and only if at each of them that secret and the
  present one merge alike with the request's (`CacheInterleaving.RunIsRightIff`), and whenever no secret
  was stored between answer and hit (`CacheInterleaving.UndisturbedIsRight`).
* **Retries need not end.** A pass whose update the API server refuses changes nothing, not even the
  counter. Three families of pods stay gated for ever: with an empty required term and images that can
  be inspected (`Retries.EmptyTermIsStuck`), with an empty term at the last attempt when a fallback
  architecture is set (`Retries.FallbackIsStuck`), and with a CEL override that comes after the pod was
  persisted and finds no room (`Retries.LateOverrideIsStuck`). `Retries.UngatedIff` is exact, for every
  pod and every run: it is released if and only if some pass releases it with the budget left, where both
  are read off the pod at the start and what the passes see. `Retries.RetriesEnd` bounds the number of
  passes, with any others in between.
* **Five failed passes are not always the limit.** A pass that cannot list the configurations keeps the
  gate whatever the counter says (`Runs.PassGate`). A negative counter allows more inspections
  (`Runs.NegativeCounter`), and at the largest 32-bit number a failed listing gives all five attempts
  back (`Retries.EdgeRegainsBudget`). `Runs.Budget` gives the number for every label text,
  `Runs.BudgetWithinFive` the texts that stay within five, `Retries.IncrementedBudget` what one more
  failure does to it, and `Retries.RetriesLast` that the bound is attained.
* **Patching can widen a pod.** A required term without any expression selects no node; the operator
  adds its requirement to it and the submitted pod gains nodes (`PodModel.EmptyTermGainsNodes`), exactly
  those that `PodModel.PatchGainsNodeIff` names. The API server accepts the patch exactly when there is
  no such term (`PodModel.RequireLegalIff`).
* **The CEL override is not always an update the API server accepts** from the controller, since it
  replaces constraints (`Placement.PlacementRefused`); `Placement.PlaceLegalIff` says when it is. Applied
  by the webhook first, it leaves the controller nothing to change (`Webhook.ControllerAgreesWithWebhook`).
* **Normalising an image reference twice is not normalising it once** when two colons follow the last
  slash: `ImageReference.NotIdempotent`, with the exact condition in `ImageReference.IdempotentIff`.
* **Webhook and controller need not see the same configurations**, even when they get the same answers:
  a synced cache that lags behind hides them from the webhook alone. `Webhook.ListingsAgreeIff` is exact,
  and `Webhook.LaggingCacheStrands` what it leads to: a pod that is not placed at admission and that the
  controller can neither place nor release (`Webhook.LaggingCacheExample` is one).
* **Priorities can clash.** Admissions do not wait for each other, so two creations that both list the
  namespace before either is stored are both admitted (`Configs.ConcurrentCreatesClash`). When each
  request lists what the earlier ones left, priorities stay distinct (`Configs.RunKeepsValid`).

Where code and comments differ the code is followed: a pod without required affinity counts as not
configured for an architecture although a comment inside `isNodeSelectorConfiguredForArchitecture`
reads otherwise, and the event record is eight bytes.

## What is assumed

* The API server applies Kubernetes' rule for gated pods ("Mutable Pod scheduling directives" on the
  "Pod Scheduling Readiness" page) to every update; an update may also fail for any other reason.
* `Affinity`, `NodeAffinity` and the required selector being nil are one case; nil labels stay a case
  of their own. A plugin is `Some` when it is configured and enabled.
* Label selectors, CEL compilation and evaluation, the registry, URL matching, the container runtime
  and cgroup lookups are arbitrary functions. `sort.Slice` is any descending permutation. Go's map
  iteration is any order.
* In the image cache JSON encoding is injective and free of zero bytes, SHA-256 has no collisions, and
  a registry that already carries the image's host expands to itself. Expiry and eviction may drop any
  entries at any time.
* The operator has one worker and reads current state; updates are guarded by the resource version;
  nobody adds finalizers to an object being deleted; nobody else puts finalizers on the daemon's RBAC
  objects; nobody but the operator removes the operator's finalizers. Pods get the gate only through
  the webhook, and admission is atomic: no pod admitted while the webhook Service existed is stored
  after the operator has seen the Service gone and counted the gated pods. Every other actor may act
  between any two API calls, every call may fail, and the operator may crash and begin again anywhere.

## Model

| member | source | states |
|---|---|---|
| `Decimal.ParsePrint` | pkg/models/pod.go:117-131 | printing a counter and parsing it back in a given width is the identity exactly on the numbers the width holds, and an error on all others |
| `Keys.TextIsInjective` | pkg/utils/const.go:23-72 | the keys the operator uses are distinct as strings, so a label written under one is never read under another |
| `Kubernetes.LegalUpdateOnlyNarrows` | internal/controller/podplacement/pod_model.go:133-169 | an update the API server accepts never makes an infeasible node feasible, unless the selector had an empty term list |
| `PodObject.Pod.constructor` | pkg/models/pod.go:21-28 | the object starts in the state it is given |
| `PodObject.Pod.HasGate` | pkg/models/pod.go:51-61 | true exactly when the gate is in the list |
| `PodObject.Pod.AddGate` | pkg/models/pod.go:64-74 | appends the gate unless it is there already and changes nothing else |
| `PodObject.Pod.RemoveGate` | pkg/models/pod.go:77-89 | filters out every occurrence of the gate, keeping the order of the others |
| `PodObject.Pod.EnsureLabel` | pkg/models/pod.go:92-97 | sets one label, creating the map when it is nil |
| `PodObject.Pod.EnsureNoLabel` | pkg/models/pod.go:100-105 | removes one label and leaves a nil map nil |
| `PodObject.Pod.EnsureAnnotation` | pkg/models/pod.go:108-113 | sets one annotation and nothing else |
| `PodObject.Pod.EnsureAndIncrementLabel` | pkg/models/pod.go:117-131 | the counter label becomes its value plus one, and "1" when it is absent or not a 32-bit number |
| `PodObject.Pod.RemoveSchedulingGate` | internal/controller/podplacement/pod_model.go:70-76 | gate and gate label change together |
| `PodObject.Pod.HandleError` | internal/controller/podplacement/pod_model.go:632-648 | error label, error annotation and counter advance; everything else stays |
| `PodModel.RequireFeasibility` | internal/controller/podplacement/pod_model.go:135-169 | for every pod and node: feasible after patching exactly when it was through a term that already named the key, or when it satisfies the new requirement and was feasible or asked for through an empty term or an empty term list |
| `PodModel.PatchGainsNodeIff` | internal/controller/podplacement/pod_model.go:135-169 | exactly which nodes patching lets in |
| `PodModel.EmptyTermGainsNodes` | internal/controller/podplacement/pod_model.go:148-166 | a pod with an empty term gains a node by being patched |
| `PodModel.RequireLegalIff` | internal/controller/podplacement/pod_model.go:135-169 | patching is a legal update of a gated pod if and only if no required term is empty |
| `PodModel.RequireNamesKey` | internal/controller/podplacement/pod_model.go:148-166 | after patching every term names the key |
| `PodModel.SupportedLabelsExactly` | internal/controller/podplacement/pod_model.go:438-459 | a per-architecture label is there exactly when it was before or the architecture is supported and in the requirement |
| `PodModel.AffinityKeepsLabels` | internal/controller/podplacement/pod_model.go:100-131 | neither the image path nor the fallback touches the retry counter or the gate label |
| `Configs.SortByPriority` | internal/controller/podplacement/pod_reconciler.go:246-249 | a permutation in descending priority |
| `Configs.SortIsUnique` | internal/controller/podplacement/pod_reconciler.go:243-286 | with distinct priorities any two consumers sort the same listing, in whatever order, to the same sequence |
| `Configs.ApplyKeepsValid` | internal/controller/podplacementconfig/podplacementconfig_webhook.go:30-111 | an admitted create or update adds the configuration under a priority nobody else has and keeps the namespace valid; a rejected one changes nothing |
| `Configs.CreateStoredIff` | internal/controller/podplacementconfig/podplacementconfig_webhook.go:30-111 | exactly which creations are stored: a well-formed configuration whose priority nobody in the namespace has |
| `Configs.UpdateStoredIff` | internal/controller/podplacementconfig/podplacementconfig_webhook.go:30-111 | exactly which updates are: well-formed ones that keep the priority or take one that no other listed configuration has; with a current listing, no other of the namespace |
| `Configs.DeletionFreesPriority` | internal/controller/podplacementconfig/podplacementconfig_webhook.go:30-111 | after a deletion a new configuration can take the priority |
| `Configs.RunKeepsValid` | api/v1beta1/podplacementconfig_types.go:81-119 | over every history in which each request lists what the earlier ones left, priorities stay pairwise distinct |
| `Configs.ConcurrentCreatesClash` | internal/controller/podplacementconfig/podplacementconfig_webhook.go:30-111 | two creations that list at the same time are both admitted with the same priority |
| `Configs.AdmittedConfigsSortOneWay` | internal/controller/podplacementconfig/podplacementconfig_webhook.go:30-111 | every history leaves at most 256 configurations, and any listing of them sorts in one way |
| `CelEvaluator.EveryHistoryIsSound` | internal/controller/podplacement/cel_evaluator.go:89-121 | after any interleaving of workers' critical sections the cache is within 1024 entries, has one entry per expression, and holds only what compiling afresh gives |
| `CelEvaluator.EvictionIsLru` | internal/controller/podplacement/cel_evaluator.go:115-118 | inserting drops an entry if and only if the cache is full and the key new, and then the least recently used one |
| `CelEvaluator.HistoryIsLru` | internal/controller/podplacement/cel_evaluator.go:89-121 | after any interleaving the entries are in the order of their last use, lookups and stores alike, so what is evicted was unused for longest |
| `CelEvaluator.FirstTrue` | internal/controller/podplacement/cel_evaluator.go:227-261 | the first rule that evaluates without error to true, or none |
| `CelEvaluator.Evaluator.constructor` | internal/controller/podplacement/cel_evaluator.go:68-86 | the evaluator starts with an empty cache |
| `CelEvaluator.Evaluator.Compile` | internal/controller/podplacement/cel_evaluator.go:89-121 | whatever others insert or evict between lookup and insertion, the program is the freshly compiled one and is most recently used afterwards |
| `CelEvaluator.Evaluator.EvaluateWithMap` | internal/controller/podplacement/cel_evaluator.go:162-191 | whatever the cache holds: the value of a boolean expression; a missing key is false; an expression that does not compile, fails or is not boolean is an error |
| `CelEvaluator.Evaluator.EvaluateRules` | internal/controller/podplacement/cel_evaluator.go:227-261 | first match, no match, or every rule errored, as the rules mean without a cache |
| `Placement.PlaceFeasibility` | internal/controller/podplacement/architecture_application.go:36-91 | for every pod and node: feasible after the override exactly when the node has one of the architectures and satisfies what the user asked for besides the architecture; no term disappears |
| `Placement.PlaceIsIdempotent` | internal/controller/podplacement/architecture_application.go:36-91 | applying the override again changes nothing |
| `Placement.PlaceLegalIff` | internal/controller/podplacement/architecture_application.go:36-91 | exactly when the API server accepts the override as an update of a gated pod |
| `Placement.PlacementRefused` | internal/controller/podplacement/architecture_application.go:36-91 | a pod whose override it refuses |
| `Placement.RemoveArchitectureFromNodeSelector` | internal/controller/podplacement/architecture_removal.go:27-38 | removes the architecture key alone and reports whether it was there |
| `Placement.CleanedExpressions` | internal/controller/podplacement/architecture_application.go:76-86 | the expressions that do not name the architecture, in order |
| `Placement.ApplyArchitectureNodeAffinity` | internal/controller/podplacement/architecture_application.go:36-91 | the in-place update equals the override; an empty architecture list changes nothing |
| `Placement.ApplyCel` | internal/controller/podplacement/cel_integration.go:33-115 | applies exactly when the configuration decides: a matching rule, else the fallback, and neither when every rule errored |
| `Placement.ApplyFirstCel` | internal/controller/podplacement/scheduling_gate_mutating_webhook.go:210-287 | the loop over the sorted configurations stops at the first that decides (`Promises.HighestPriorityDecides` says which that is) |
| `Preferences.TrackedEntries` | internal/controller/podplacement/pod_model.go:265-297 | on the annotation's entries: appended exactly when not there yet |
| `Preferences.OneTermEach` | internal/controller/podplacement/pod_model.go:173-241 | exactly one new term for each architecture listed and not yet preferred |
| `Preferences.ApplySourcesTerms` | internal/controller/podplacement/pod_reconciler.go:243-286 | applying the sources one after another is applying their concatenation, and existing terms stay a prefix |
| `Preferences.ApplySourcesScore` | internal/controller/podplacement/pod_model.go:173-241 | every node's score rises by exactly the weight of the first listing of its architecture, and by nothing if it was already preferred |
| `Preferences.HighestPriorityWins` | internal/controller/podplacement/pod_reconciler.go:243-286 | of several configurations listing an architecture the one with the highest priority gives the weight |
| `Preferences.ClusterWeightIsLast` | internal/controller/podplacement/pod_reconciler.go:172-176 | the cluster configuration's weight counts only for architectures no matching configuration lists |
| `StringSets.ListingIsUnique` | internal/controller/podplacement/pod_model.go:325-343 | a set has one sorted listing |
| `StringSets.List` | internal/controller/podplacement/pod_model.go:325-343 | the elements of the set in increasing order |
| `Affinity.SetRequiredArchNodeAffinity` | internal/controller/podplacement/pod_model.go:135-169 | the in-place loop over the terms equals patching, and the affinity label tells |
| `Affinity.IsNodeSelectorConfiguredForArchitecture` | internal/controller/podplacement/pod_model.go:582-623 | true exactly when the node selector or every required term names the architecture |
| `Affinity.IntersectImagesArchitecture` | internal/controller/podplacement/pod_model.go:358-421 | in every iteration order: the sorted intersection over all inspected images, or the failure of one of them (`Promises.ImagesAre` says which images these are) |
| `Affinity.InspectionIsUnique` | internal/controller/podplacement/pod_model.go:358-421 | all iteration orders fail alike, and when none fails give the same requirement |
| `Affinity.EnsureArchitectureLabels` | internal/controller/podplacement/pod_model.go:438-459 | the labels for no, one or several architectures and for each supported one |
| `Affinity.SetNodeAffinityArchRequirement` | internal/controller/podplacement/pod_model.go:100-131 | the image path on the object; an error exactly when an inspection failed |
| `Affinity.SetRequiredNodeAffinityToFallbackArchitecture` | internal/controller/podplacement/pod_model.go:300-323 | the fallback requirement and its label |
| `Affinity.TrackAffinitySource` | internal/controller/podplacement/pod_model.go:265-297 | the annotation text after tracking one listing |
| `Affinity.GetExistingPreferredArchitectures` | internal/controller/podplacement/pod_model.go:245-261 | every architecture some preferred term names |
| `Affinity.CollectPreferredTerms` | internal/controller/podplacement/pod_model.go:186-221 | the new terms, and every listing tracked as applied or skipped |
| `Affinity.SetPreferredArchNodeAffinity` | internal/controller/podplacement/pod_model.go:173-241 | the in-place operation equals its value form |
| `Affinity.IsPreferredAffinityConfiguredForArchitecture` | internal/controller/podplacement/pod_model.go:652-667 | true exactly when some preferred term names the architecture |
| `Reconciler.FilterMatchingPpcs` | internal/controller/podplacement/pod_model.go:671-688 | the matching configurations in listing order |
| `Reconciler.HasMatchingPpcWithPlugin` | internal/controller/podplacement/pod_model.go:693-700 | true exactly when a matching configuration has a plugin that needs the gate |
| `Reconciler.IsFromDaemonSet` | pkg/models/pod.go:148-156 | true exactly when a DaemonSet is the controlling owner |
| `Reconciler.ShouldIgnorePod` | internal/controller/podplacement/pod_model.go:471-578 | which pods are left alone (written out in `Promises.ConcernedMeans`), and the labels that remain from asking |
| `Reconciler.ApplyPpcScoring` | internal/controller/podplacement/pod_reconciler.go:243-286 | the loop over the sorted configurations equals the fold |
| `Reconciler.TrackSkippedMatchingConfigs` | internal/controller/podplacement/pod_reconciler.go:291-316 | every listing of every configuration is tracked as skipped and nothing else changes |
| `Reconciler.ProcessPod` | internal/controller/podplacement/pod_reconciler.go:124-233 | one pass on the object equals one pass on values, for what the world shows it |
| `Reconciler.ReconcilePod` | internal/controller/podplacement/pod_reconciler.go:70-122 | the stored pod after one reconciliation: untouched without the gate or when the update is not accepted |
| `Runs.IncrementSpends` | pkg/models/pod.go:117-131 | a failed inspection reaches the limit exactly when the budget is one and spends one unit otherwise, also where the number leaves 32 bits |
| `Retries.IncrementedBudget` | pkg/models/pod.go:117-131 | what a failed listing does to the budget: one less, not below one, and back to five at the 32-bit edge |
| `Retries.EdgeRegainsBudget` | pkg/models/pod.go:117-131 | a counter at that edge |
| `Runs.BudgetWithinFive` | internal/controller/podplacement/pod_model.go:423-432 | the budget is at most five if and only if the counter is absent, unreadable or not negative |
| `Runs.NegativeCounter` | internal/controller/podplacement/pod_model.go:423-432 | a counter with a budget of six |
| `Runs.ImagePathGate` | internal/controller/podplacement/pod_reconciler.go:197-232 | the image path keeps the gate exactly while inspection fails and budget remains |
| `Runs.PassGate` | internal/controller/podplacement/pod_reconciler.go:124-233 | exactly when a pass leaves the gate on, and what it may have changed then |
| `Runs.SubmittedLegalIff` | internal/controller/podplacement/pod_reconciler.go:124-233 | exactly which passes submit an update the API server accepts, in terms of the pod and the pass |
| `Retries.PassOutcome` | internal/controller/podplacement/pod_reconciler.go:70-122 | for every gated pod exactly which passes release it, and otherwise exactly when the counter advances |
| `Retries.UngatedIff` | internal/controller/podplacement/pod_reconciler.go:70-122 | for every gated pod and every run: released if and only if some pass releases it with the budget counted from the earlier passes |
| `Retries.FourOutcomes` | internal/controller/podplacement/pod_reconciler.go:104-111 | a pass releases, counts, fails by itself or is refused, and when it is refused |
| `Retries.RetriesEnd` | internal/controller/podplacement/pod_reconciler.go:70-122 | a pod is ungated once as many passes work as its budget says, plus four for each wrap of the counter, whatever other passes come in between |
| `Retries.ShortRunsDoNotWrap` | pkg/models/pod.go:117-131 | the counter cannot wrap in a run too short to reach the edge |
| `Retries.StuckForever` | internal/controller/podplacement/pod_reconciler.go:104-111 | a pod whose passes are all refused stays as it is, counter and all |
| `Retries.EmptyTermIsStuck` | internal/controller/podplacement/pod_reconciler.go:104-111 | a pod with an empty term whose images can be inspected is never ungated |
| `Retries.FallbackIsStuck` | internal/controller/podplacement/pod_reconciler.go:208-222 | nor is one with an empty term at its last attempt when a fallback architecture is set |
| `Retries.LateOverrideIsStuck` | internal/controller/podplacement/pod_reconciler.go:104-111 | nor is a pod overridden late that has no room for the override |
| `Retries.RetriesLast` | internal/controller/podplacement/pod_reconciler.go:197-232 | with every inspection failing it is still gated one pass earlier |
| `Runs.UngatedStays` | internal/controller/podplacement/pod_reconciler.go:70-122 | an ungated pod is never changed again |
| `Runs.RunKeepsGates` | internal/controller/podplacement/pod_model.go:70-76 | over any run the gate label tells the gate and other gates keep their order |
| `Runs.RunPatches` | internal/controller/podplacement/pod_reconciler.go:124-233 | over any run of image-path and fallback passes the required terms are patched at most once |
| `Runs.RunOnlyGains` | internal/controller/podplacement/pod_reconciler.go:124-233 | image-path and fallback passes, all of them persisted: node selector and fields stay, no term comes or goes, each expression list stays a prefix and gains at most one requirement over the whole run; without empty terms that is a legal update and lets no node in |
| `Runs.RunIsSubmitted` | internal/controller/podplacement/pod_reconciler.go:70-122 | a run under the API server's rule is such a run of the passes it accepts |
| `Runs.EverySubmissionIsLegalIff` | internal/controller/podplacement/pod_reconciler.go:104-111 | at every point of a run, an image-path or fallback pass submits a legal update if and only if it adds no requirement or the pod has no empty term |
| `Runs.PredicateMeaning` | internal/controller/podplacement/pod_model.go:325-343 | a node satisfies the requirement exactly when every inspected image runs on its architecture |
| `Runs.ImagePathFeasibility` | internal/controller/podplacement/pod_model.go:100-131 | end to end, for every pod and node: feasible in what the pass submits exactly when it was through a term that already named the key, or runs all images and was feasible or asked for through nothing (on the pod's own containers: `Promises.PodGoesWhereItRuns`) |
| `Runs.FallbackFeasibility` | internal/controller/podplacement/pod_reconciler.go:197-232 | the last failing pass submits the pod ungated, with the nodes restricted to the fallback architecture in the same way, or not at all when none is set |
| `PreferenceRuns.PassPreferences` | internal/controller/podplacement/pod_reconciler.go:164-180 | a pass adds preferences only to a pod that has none for any architecture |
| `PreferenceRuns.RunPreferences` | internal/controller/podplacement/pod_model.go:173-241 | over any run, with configurations changing between passes: existing terms stay a prefix, no architecture gets two terms, and a node gains exactly the effective weight seen by the first persisted pass that found platforms |
| `PreferenceRuns.AddedOnce` | internal/controller/podplacement/pod_reconciler.go:243-286 | one term per listed architecture, and each node gains the effective weight of its own |
| `PreferenceRuns.AnnotationGrows` | internal/controller/podplacement/pod_model.go:265-297 | whatever it starts from and however configurations change, the audit trail only gains new and distinct entries, at most two per platform term ever seen |
| `PreferenceRuns.AnnotationSettles` | internal/controller/podplacement/pod_model.go:265-297 | after two persisted passes over the same configurations it does not change until they do |
| `PreferenceRuns.TrailTells` | internal/controller/podplacement/pod_model.go:265-297 | the trail names architecture, weight and source of each listing of each configuration applied, and says of it that it was skipped exactly when the architecture was already preferred, by the pod, by a configuration before it or by an earlier listing |
| `PreferenceRuns.SkippedTrailTells` | internal/controller/podplacement/pod_reconciler.go:291-316 | when the configurations are not applied it says of every listing that it was skipped |
| `Webhook.ListingsAgreeIff` | internal/controller/podplacement/scheduling_gate_mutating_webhook.go:99-116 | exactly when admission and a controller pass that get the same answers see the same configurations |
| `Webhook.LaggingCacheStrands` | internal/controller/podplacement/scheduling_gate_mutating_webhook.go:105-116 | a lagging synced cache leaves a pod unplaced that the controller then finds no room to place and never releases |
| `Webhook.LaggingCacheExample` | internal/controller/podplacement/scheduling_gate_mutating_webhook.go:105-116 | such a cache, configuration and pod |
| `Webhook.Handle` | internal/controller/podplacement/scheduling_gate_mutating_webhook.go:73-152 | admission on the object equals admission on values |
| `Webhook.AdmittedLabel` | internal/controller/podplacement/scheduling_gate_mutating_webhook.go:117-150 | a pod is gated exactly when it is not ignored, and the label tells |
| `Webhook.GateLabelAlwaysRight` | internal/controller/podplacement/scheduling_gate_mutating_webhook.go:73-152 | from admission through any run the label is "gated" exactly while the gate is there |
| `Webhook.MapPpcToPods` | internal/controller/podplacement/pod_reconciler.go:375-399 | one request per labelled pod of the namespace |
| `Webhook.QueryFindsTheGated` | internal/controller/podplacement/pod_reconciler.go:375-399 | after any lives of any pods the label query finds exactly the pods that hold the gate |
| `Webhook.ControllerAgreesWithWebhook` | internal/controller/podplacement/scheduling_gate_mutating_webhook.go:210-287 | with distinct priorities every pass decides as the webhook did, no pass of any run changes what the webhook placed, and every submitted update is legal |
| `Promises.ConcernedMeans` | internal/controller/podplacement/pod_model.go:471-578 | the pods the operator works on, written out: not in its own or a kube- namespace, not bound, not for control planes, not of a DaemonSet, and with an architecture left to choose or to prefer |
| `Promises.AdmissionGatesIff` | internal/controller/podplacement/scheduling_gate_mutating_webhook.go:117-142 | the gates a pod leaves admission with: those it came with, in order, and the scheduling gate, once, if and only if it is one of these |
| `Promises.PassLeavesAlone` | internal/controller/podplacement/pod_reconciler.go:124-163 | a pass ungates any other pod, says so in the gate label, and leaves its directives and annotations alone; the affinity label changes only where the node selector names the architecture |
| `Promises.FailedListingTells` | internal/controller/podplacement/pod_reconciler.go:131-147 | a pass that cannot list the configurations leaves gates and directives and puts error label and message on the pod |
| `Promises.ChoiceStays` | internal/controller/podplacement/pod_reconciler.go:197-232 | a pod whose user chose the architecture and for which no configuration decides is released with its constraints as they were, and the affinity label says so |
| `Promises.DecisionMeans` | internal/controller/podplacement/cel_evaluator.go:227-261 | a configuration decides for the architectures of its first rule that is true, or for its fallback when no rule is true and not every rule failed, and otherwise not at all |
| `Promises.HighestPriorityDecides` | internal/controller/podplacement/scheduling_gate_mutating_webhook.go:210-287 | of the configurations that decide the one with the highest priority places the pod, in whatever order they were listed |
| `Promises.AdmissionPlaces` | internal/controller/podplacement/scheduling_gate_mutating_webhook.go:117-142 | a new pod in reach without preferred architectures leaves admission gated, placed as that configuration says and labelled so, even where its user had chosen an architecture |
| `Promises.PassPlaces` | internal/controller/podplacement/pod_reconciler.go:164-196 | a pass submits every pod it is concerned with ungated and placed as that configuration says |
| `Promises.ImagesAre` | internal/controller/podplacement/pod_model.go:345-356 | the images inspected are those of the containers and of the init containers, each with its own pull policy, and no others |
| `Promises.InspectionFailsIff` | internal/controller/podplacement/pod_model.go:358-421 | the inspection fails if and only if some container or init container has an image that cannot be inspected |
| `Promises.PodGoesWhereItRuns` | internal/controller/podplacement/pod_model.go:100-131 | after a successful inspection a node is feasible exactly when every container and init container runs on its architecture and it was feasible before (with the exceptions of `Runs.ImagePathFeasibility`); when the pod runs nowhere, only nodes with the label for that are |
| `Promises.MatchingAre` | internal/controller/podplacement/pod_model.go:671-688 | the matching configurations are those listed whose selector takes the pod, each as often as listed |
| `Promises.AdmissionLabels` | internal/controller/podplacement/scheduling_gate_mutating_webhook.go:117-150 | which gate and affinity labels a pod has after admission, in every case |
| `Promises.PodTellsSuccess` | internal/controller/podplacement/pod_model.go:100-131 | after a successful inspection the labels say that the affinity is set, and no error label is left |
| `Promises.PodTellsWhereItRuns` | internal/controller/podplacement/pod_model.go:438-459 | besides the labels it had, exactly: one for each supported architecture it runs on, and the one for a single or for several architectures |
| `Promises.PodTellsFailure` | internal/controller/podplacement/pod_model.go:632-648 | after a failed one it carries the error label and the message, cut to 256 characters, and after the last attempt the fallback architecture if there is one |
| `PreferencePromises.PreferredAre` | internal/controller/podplacement/pod_model.go:245-261 | the architectures a pod prefers are those listed under the architecture key in some preferred term |
| `PreferencePromises.SourcesAre` | internal/controller/podplacement/pod_reconciler.go:243-286 | every scoring configuration speaks, under its own name and with its own platforms, and nobody else |
| `PreferencePromises.PassTells` | internal/controller/podplacement/pod_reconciler.go:164-180 | every listing of every matching configuration and of the cluster's is in the trail a pass submits, under its source's name, with its weight, and as skipped if the pod came with preferences |
| `PreferencePromises.PreferenceLabelTells` | internal/controller/podplacement/pod_model.go:173-241 | a pass sets the preferred-affinity label if and only if it adds preferred terms |
| `ImageReference.Normalises` | pkg/image/inspector.go:239-286 | name, tag and digest become name and digest; without a digest nothing changes |
| `ImageReference.ParseWithDigest` | pkg/image/inspector.go:239-286 | for every name and digest: only the text from the last tag colon up to the digest goes |
| `ImageReference.TaggedDigest` | pkg/image/inspector.go:239-286 | on plain texts: a reference with a tag before its only @sha loses the tag |
| `ImageReference.WithoutSha` | pkg/image/inspector.go:239-286 | a reference without @sha stays as it is |
| `ImageReference.Rejections` | pkg/image/inspector.go:239-286 | exactly which inputs are rejected and why |
| `ImageReference.IdempotentIff` | pkg/image/inspector.go:239-286 | exactly when normalising twice is normalising once |
| `ImageReference.TwoTagsTakeTwoSteps` | pkg/image/inspector.go:239-286 | every reference with two tags and a digest needs two steps |
| `ImageReference.NotIdempotent` | pkg/image/inspector.go:239-286 | a concrete reference that does |
| `ImageCache.MergedFrom` | pkg/image/auth.go:51-55 | merging secrets is last-wins and associative |
| `ImageCache.ExpandGlobs` | pkg/image/auth.go:100-142 | in every iteration order: all entries stay, and exactly the targets of matching globs are added with a matching glob's credentials |
| `ImageCache.WildcardProvides` | pkg/image/auth.go:100-142 | a registry with a wildcard character that matches the image brings credentials for the registry it stands for, its own unless that one has some or another one matches too |
| `ImageCache.NothingForNoRegistry` | pkg/image/auth.go:100-142 | a wildcard that stands for no registry adds nothing |
| `ImageCache.PlainProvidesItself` | pkg/image/auth.go:100-142 | without wildcard characters nothing is added |
| `ImageCache.MergeSecrets` | pkg/image/inspector.go:313-333 | the expansion of the merged secrets, skipping what does not parse |
| `ImageCache.FramingIsInjective` | pkg/image/cache.go:85-91 | reference, zero byte and secrets can be told apart |
| `ImageCache.KeyIsInjective` | pkg/image/cache.go:85-91 | equal keys mean equal reference and equal expanded credentials |
| `ImageCache.LooseIsUnsafe` | pkg/image/cache.go:39-67 | a matching glob without an entry of its own lets two pods share a key and use different auth files |
| `ImageCache.KeyIsSafeIff` | pkg/image/cache.go:39-67 | a key stands for one auth file, whatever the global secret, if and only if there is no such glob |
| `ImageCache.HitIsRight` | pkg/image/cache.go:39-67 | a hit is an answer for this image with an auth file this request could use |
| `ImageCache.CacheProxy.constructor` | pkg/image/cache.go:78-83 | the cache starts empty |
| `ImageCache.CacheProxy.Inspect` | pkg/image/inspector.go:74-90 | the registry is asked with the pod's secrets merged over the global one |
| `ImageCache.CacheProxy.GetCompatibleArchitecturesSet` | pkg/image/cache.go:39-67 | a hit asks nobody; a miss answers what the registry says for the pod's secrets over the global one and remembers it, unless told to skip the cache; either way the answer is the inspector's for this image and an auth file of this request |
| `ImageCache.CacheProxy.StoreGlobalPullSecret` | pkg/image/facade.go:42-45 | after the call the secret is stored and nothing obtained with the old one is cached |
| `CacheInterleaving.RunKeepsRecorded` | pkg/image/cache.go:39-67 | over every interleaving each cached or pending answer is right for the global secret it was made with |
| `CacheInterleaving.SkippingLeavesNoTrace` | pkg/image/cache.go:39-67 | removing a lookup that skips the cache from any interleaving changes neither the cache nor any other lookup |
| `CacheInterleaving.SkippingAsks` | pkg/image/cache.go:51-59 | such a lookup goes to the registry whatever the cache holds |
| `CacheInterleaving.HitIsRightIff` | pkg/image/cache.go:51-55 | a hit is right for the request and the present secret if and only if that secret and the recorded one merge alike with the request's |
| `CacheInterleaving.RunIsRightIff` | pkg/image/facade.go:42-45 | the same for all hits of every run, where credentials leave nothing to a glob |
| `CacheInterleaving.UndisturbedIsRight` | pkg/image/facade.go:42-45 | every hit of a run is right when no secret was stored between its answer and the hit, however everything else interleaves |
| `CacheInterleaving.SerializedIsUndisturbed` | pkg/image/facade.go:42-45 | so it is when each store is purged at once and overlaps no answered lookup |
| `CacheInterleaving.StaleAfterPurge` | pkg/image/facade.go:42-45 | for any two secrets that merge differently, an insertion after the purge is hit with the old answer |
| `CacheInterleaving.StaleBeforePurge` | pkg/image/facade.go:42-45 | with nothing pending, a lookup between store and purge is answered with the old one |
| `Tracepoint.Spec.InitializeProgSpec` | internal/controller/enoexecevent/daemon/internal/tracepoint/tracepoint_program.go:63-104 | the program is the concatenation of its blocks, or an error leaves the spec alone |
| `Tracepoint.ProgramIsLaid` | internal/controller/enoexecevent/daemon/internal/tracepoint/tracepoint_program.go:74-102 | where each block of the program starts |
| `Tracepoint.Labels` | internal/controller/enoexecevent/daemon/internal/tracepoint/tracepoint_program.go:199-229 | every jump label resolves, and to its block |
| `TracepointRun.LoadBlock` | internal/controller/enoexecevent/daemon/internal/tracepoint/tracepoint_program.go:156-170 | seven instructions write the task's id at the offset, or go to the cleanup |
| `TracepointRun.ParentLoaded` | internal/controller/enoexecevent/daemon/internal/tracepoint/tracepoint_program.go:174-195 | nine instructions put the real parent into R8, or go to the cleanup when it is null |
| `TracepointRun.FromSubmit` | internal/controller/enoexecevent/daemon/internal/tracepoint/tracepoint_program.go:199-208 | submits the record once and exits |
| `TracepointRun.FromCleanup` | internal/controller/enoexecevent/daemon/internal/tracepoint/tracepoint_program.go:212-229 | discards the record once and exits |
| `TracepointRun.FromReserve` | internal/controller/enoexecevent/daemon/internal/tracepoint/tracepoint_program.go:134-146 | from reserving to the end: the effects on the ring buffer, the reservation in the map the program was given |
| `TracepointRun.ProgramRuns` | internal/controller/enoexecevent/daemon/internal/tracepoint/tracepoint_program.go:63-229 | for every kernel memory, offset and helper result the program ends within 39 steps, reads no unset register, leaves nothing reserved and does exactly the expected effects, its reservation in the events map |
| `TracepointRun.RecordsDecode` | internal/controller/enoexecevent/daemon/internal/tracepoint/tracepoint.go:203-240 | space is reserved only after ENOEXEC and only in the events map, each reservation is followed by one submit or discard, and a submitted record decodes, in either byte order, to the ids of real parent and task |
| `TracepointRun.ProcessRecord` | internal/controller/enoexecevent/daemon/internal/tracepoint/tracepoint.go:203-240 | the process whose id is in the second half of the record is asked about before its parent; the first that is known answers, with its pod or the runtime's error |
| `Operator.DeleteErroredENoExecEvents` | internal/controller/operator/clusterpodplacementconfig_controller.go:1090-1119 | counts add up, the blocking count is positive exactly when a non-errored event was listed, and exactly the errored events that can be deleted are |
| `Operator.SweepEvents` | internal/controller/operator/clusterpodplacementconfig_controller.go:1090-1119 | on any listing of the cluster's events: blocks exactly when one is not errored, and leaves all but the errored ones whose deletion succeeds |
| `OperatorTeardown.ListedAndSwept` | internal/controller/operator/clusterpodplacementconfig_controller.go:1090-1119 | the protocol's own sweep, call by call, in every order and with any deletions failing, leaves the same events and blocks alike |
| `OperatorSafety.ReachableInv` | internal/controller/operator/clusterpodplacementconfig_controller.go:163-285 | the invariant holds in every state of every interleaving |
| `OperatorSafety.NoGateWithoutFinalizer` | internal/controller/operator/clusterpodplacementconfig_controller.go:195-241 | while the configuration lacks the pod-placement finalizer no pod is gated and none can be |
| `OperatorDraining.NoGateAfterServiceCheck` | internal/controller/operator/clusterpodplacementconfig_controller.go:463-500 | once the Service is seen gone, in every continuation without a new configuration, over all later passes and between them, it stays gone and no further pod is gated; after the pod check none is gated |
| `OperatorDraining.ReachableStoredDeleting` | internal/controller/operator/clusterpodplacementconfig_controller.go:179-193 | in every interleaving a deleting pass works for a stored configuration that is being deleted |
| `OperatorWaiting.DeletionWaitsForPpcs` | internal/controller/operator/clusterpodplacementconfig_controller.go:411-434 | from every reachable point between two passes with the configuration being deleted, its no-PodPlacementConfig finalizer on it and PodPlacementConfigs left: in every continuation that deletes none of them the configuration stays stored with the finalizer, and no step of the operator touches an object of the webhook or the pod controller |
| `OperatorWaiting.NoWebhookUntilReady` | internal/controller/operator/clusterpodplacementconfig_controller.go:777-787 | a pass that finds the webhook not ready takes its configuration away, and in every continuation, with anybody acting in between, nothing brings it back before a pass finds the webhook ready |
| `OperatorWaiting.NoDaemonUntilReady` | internal/controller/operator/clusterpodplacementconfig_controller.go:789-823 | in every interleaving in which no pass finds the daemon's service account ready there is no DaemonSet |
| `OperatorSweeps.ExecErrorGoesLast` | internal/controller/operator/clusterpodplacementconfig_controller.go:585-743 | in every interleaving, when the exec-error finalizer leaves the configuration every object of daemon and handler is gone or being deleted |
| `OperatorSweeps.PodPlacementGoesLast` | internal/controller/operator/clusterpodplacementconfig_controller.go:434-583 | and when the pod-placement finalizer does, every object of the webhook |
| `OperatorSweeps.ApplyGoesOn` | pkg/utils/resource.go:114-129 | one object that cannot be applied keeps no other from being applied in the same pass |
| `OperatorSweeps.SweepGoesOn` | pkg/utils/resource.go:139-153 | nor does one that cannot be deleted keep any other from being deleted |
| `OperatorSafety.ReleaseIsSafe` | internal/controller/operator/clusterpodplacementconfig_controller.go:395-583 | `handleDelete` drops the pod-placement finalizer, from the controller Deployment and from the configuration, only with no gated pod left and the Service gone (the set-up path also takes it off a controller Deployment that somebody else deletes, while pods may be gated) |
| `OperatorSafety.OnlyReleaseDrops` | internal/controller/operator/clusterpodplacementconfig_controller.go:395-583 | only the last step of the deletion drops it |
| `OperatorSafety.NoGateUntilNewCppc` | internal/controller/operator/clusterpodplacementconfig_controller.go:163-193 | after the configuration is gone no pod is gated until a new one is created |
| `OperatorSafety.NeverStranded` | internal/controller/operator/clusterpodplacementconfig_controller.go:179-193 | the early return for a deleting configuration never strands another operator finalizer |
| `OperatorSafety.OnlyReleaseUnguards` | internal/controller/operator/clusterpodplacementconfig_controller.go:585-743 | only one step takes the finalizer off the handler Deployment |
| `OperatorSafety.ExecErrorReleaseIsSafe` | internal/controller/operator/clusterpodplacementconfig_controller.go:585-743 | the exec-error finalizer goes only when daemon and RBAC objects are gone and every event is errored, and no event can appear afterwards |
| `OperatorTeardown.TeardownCompletes` | internal/controller/operator/clusterpodplacementconfig_controller.go:395-743 | once nothing is left to wait for, every undisturbed sequence of successful calls longer than a stated rank removes a deleting configuration, whichever operator finalizers it holds and wherever the worker begins |
| `OperatorTeardown.CallGetsOn` | internal/controller/operator/clusterpodplacementconfig_controller.go:395-743 | every such call removes the configuration or lowers the rank |
| `OperatorCleanup.TeardownCleansUp` | internal/controller/operator/clusterpodplacementconfig_controller.go:395-743 | at the end of such a teardown the worker is at rest, the configuration is gone, and so is every object that set-up can apply unless somebody else's finalizer holds it |
| `OperatorCleanup.EverythingIsListed` | internal/controller/operator/clusterpodplacementconfig_controller.go:434-743 | every object that set-up can apply is on the deletion list of its part |
| `OperatorSetup.SetupCompletes` | internal/controller/operator/clusterpodplacementconfig_controller.go:163-285 | from every undisturbed state with the worker at rest, whatever finalizers and objects there are, every long enough sequence of successful calls ends with exactly the wanted finalizers, every object in place, the handler Deployment and a new controller Deployment guarded, and stays there |
| `OperatorSetup.CallComesNearer` | internal/controller/operator/clusterpodplacementconfig_controller.go:746-864 | every such call, also while a disabled monitor is taken down, lowers a level or comes nearer to the end of its pass, and undoes nothing of a finished set-up |

## Left out

- Events, metrics, logging, and the delayed event goroutine of the webhook.
- The CEL language, `podToMap` and `validateCELExpression`: expressions are arbitrary functions of the pod.
- Registry access, manifest parsing, signature policy, and the retrieval of a pod's pull secrets.
- `removeArchitectureFromNodeAffinity`, `removeAllArchitectureConstraints` and `applyArchitectureConstraints`, which no placement path calls.
- Status conditions and their aggregation, conversions between API versions, and the field checks of the CRDs other than priority.
- The contents of the objects the operator applies, namespace labels, and the Prometheus monitors.
- That no PodPlacementConfig outlives the ClusterPodPlacementConfig: their admission does not look at a deletion in progress, so the model lets them come and go. While one is left and the finalizer is on, the deletion waits (`OperatorWaiting.DeletionWaitsForPpcs`).
- The kernel's verifier, BTF offsets (arbitrary numbers here), attaching the tracepoint, cgroup parsing, and the reconciler of the events.
- Expiry times and the eviction order of the image cache: any entries may go at any time. The CEL cache has its exact order.
- Kubernetes.LegalUpdateOnlyNarrows: excludes a selector that is present with an empty term list, from which Kubernetes lets an update add terms.
- OperatorTeardown.TeardownCompletes: undisturbed successful calls, not liveness under a fair scheduler with other actors in between.
- OperatorSetup.SetupCompletes: likewise, and on a cluster that is ready for the webhook and the daemon.
