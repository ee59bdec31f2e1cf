# Verification of the Knative functions controller

The controller keeps many Functions of one kind behind one shared runtime. All Functions of a kind share one
ConfigMap (one entry for each Function in the file `___config.json`) and one Knative Service (whose template
carries the ConfigMap version as an annotation). Every Function reconcile edits both, every CRD reconcile of the
kind edits both, in the opposite read order, and nothing but object versions coordinates them. This project models
both reconcilers as programs that make one request at a time, runs any number of them against a versioned API
server with stale lister caches, lost responses and crashes, and proves what holds in every run. The imperative
code around it (status conditions, deep copies, the informer factory, the start-up code) is modelled on heap objects.

`dafny verify dfyconfig.toml` checks everything.

## How the model is built

| file | what it holds |
|---|---|
| `Names.dfy` | route names, hosts and configuration keys |
| `Lifecycle.dfy` | the status of a Function and the calls that change it, as values |
| `Cluster.dfy` | the API server: stored objects, versions, requests, replies, lister history |
| `Programs.dfy` | both reconcilers: the request that each phase makes and the phase after each reply; the merge of one entry |
| `Protocol.dfy` | states, steps and runs; the log of what happened (it influences nothing) |
| `Invariant.dfy`, `Preservation.dfy` | the inductive invariant and the proof that every step keeps it |
| `Theorems.dfy` | what follows for every run |
| `ConfigWrites.dfy` | leaving out a write against always writing |
| `Convergence.dfy` | reconciles that run alone with fresh listers: one state in the end, and then nothing more to do |
| `Reports.dfy` | what a reconcile says of its Function after every possible reply; Functions that are being deleted |
| `Setbacks.dfy` | reconciles that run alone and cannot succeed, or have nothing to do: what they store and which requests they make |
| `CrdAlone.dfy` | the same for CRD reconciles |
| `Witness.dfy` | one concrete run from the empty cluster: the situations the theorems speak about do occur |
| `Objects.dfy`, `ClusterObjects.dfy` | Functions, statuses, Services and ConfigMaps as heap objects, with their deep copies |
| `World.dfy` | the API server as the code of one reconcile meets it: others act before every reply |
| `FunctionReconciler.dfy`, `CrdReconciler.dfy` | the two reconcilers as imperative code over heap objects, proved to perform exactly the steps of `Programs.dfy` |
| `InformerFactory.dfy` | the memo table of shared informers |
| `Startup.dfy` | the controllers built at start and the handler that makes the process exit |

A phase of `Programs.Phase` stands before one request. `Programs.RequestOf` gives the request and
`Programs.Advance` everything the code does between the reply and the next request. `Protocol.Do` performs one step
of one reconcile, of a user or of Knative Serving. `Reaches` means that some finite sequence of enabled steps leads
from one state to another, so a lemma about every reachable state is about every interleaving. The methods of
`FunctionReconciler` and `CrdReconciler` may only make the request of their current phase, and each says which phase
it leaves behind, so a method that swapped two requests, skipped one or took the wrong branch would not verify.

## Assumptions

- Versions are natural numbers from one counter. A change of content gets a new version; an Update with identical
  content keeps the version; an Update with another version than the stored one fails; a Create fails when the name
  is taken. The annotation holds the version as a number; the code only compares the two strings for equality.
- A lister may return any object that was ever stored, or nothing. Service objects from the lister are shared: the cache
  hands out the same object for the same version to everybody. A live Get returns what is stored. Any request may
  fail, also after it took effect (the response is lost). A reconcile may die at any point.
- One reconcile at a time for each Function key and each CRD; different keys run concurrently.
- The generation of a Function changes exactly with its spec, by one. Unique identifiers are never used again.
- Routes are not deleted and keep their owner; Routes of other kinds may exist and may be in the way. Nobody else edits
  the ConfigMap or the Service spec. Function objects may be created, edited, marked as deleted and removed at any time.
- A ready Route has an address whose host is `name.knative-functions.svc.domain`, and its name has no dot (Knative
  requires it). A Route that is not ready may have any address, or none.
- The condition set keeps one condition for each type. Marking True makes Ready True when both dependents are True;
  marking a dependent False makes Ready False; marking another condition leaves Ready alone; repeating a mark changes
  nothing. Initialization gives unset dependents the status True when Ready is True already and Unknown else, as
  `vendor/knative.dev/pkg/apis/condition_set.go` does; in a coherent status the first case cannot occur.
- A configuration entry that one Function's write does not concern survives being decoded and encoded again. This is true
  of entries whose numbers a float64 represents exactly: the code decodes into `map[string]interface{}`, so an integer
  such as 9007199254740993 in one Function's spec is rounded by the next write of another Function.
- The plural name of a CRD is a DNS label, so it has no dot. Only the lemmas of `Witness.dfy` need this.
- In the convergence lemmas the readiness of the Service is not disturbed by an annotation write.
- FilteringResourceEventHandler filters both sides of an update, as in client-go.

`Params.skipEqual` covers two readings of line 275 of `pkg/reconciler/functions/functions.go`. That line compares a
decoded JSON value with a pointer to a RawExtension, which are never equal, so the code writes whenever the address has
a host: this is `skipEqual == false`. The evident intention is `skipEqual == true`. Everything in `Theorems.dfy` and
`Convergence.dfy` holds for both.

The comment at line 31 of `pkg/apis/duck/v1alpha1/function_lifecycle.go` says that Ready needs all conditions; line 51
makes it depend on ConfigMapSynced and Addressable only. The model follows line 51.

## What turned out not to hold

- The annotation can go back. `Theorems.AnnotationGoesBackExactly` says when: a step lowers it if and only if it is the
  applied update of a CRD reconcile whose ConfigMap read returned an older version than the annotation names by now. The
  CRD reconcile reads the ConfigMap before the Service, so this happens: `Witness.AnnotationGoesBackInSomeRun` gives a
  run from the empty cluster. It never happens without a CRD commit (`Theorems.AnnotationNeverGoesBack`), and when it
  does the ConfigMap was committed between the read and the write (`Theorems.CrdLowersOnlyAfterACommit`).
- Route names are not injective. `Names.CollidesExactlyWhenCut` says which Functions that a cluster accepts can collide
  with another such Function: those whose namespace has a hyphen between two alphanumeric characters, or whose name has
  one inside its first dot-separated label, as long as both sides of the cut keep within the length limits. The protocol
  stays safe, because only the Function that controls the Route writes its key.
- The configuration key is the published address only without dots (`Names.KeyMatchesAddress`, an equivalence); Routes with
  dotted names would share keys (`Names.DottedNamesShareAKey`).

## Model

| member | source | states |
|---|---|---|
| Theorems.NoLostUpdate | pkg/reconciler/functions/functions.go:240-290 | in every run the stored configuration is the empty object with every committed (host, spec) merge applied in commit order |
| Theorems.EntriesPersist | pkg/reconciler/functions/functions.go:267-290 | along every continuation of a run keys never disappear, and an entry that changed was committed under its own key in between |
| Theorems.SingleWriterPerKey | pkg/reconciler/functions/functions.go:190-220 | every commit was made by a Function that controls the Route its key is named after, and two commits of one key have the same writer |
| Theorems.OwnerIsForever | pkg/reconciler/functions/functions.go:190-217 | once a Route exists, only its owner ever wrote or will write its key, also when Route names collide or a lister misses the Route |
| Theorems.ReadyTellsTheTruth | pkg/reconciler/functions/functions.go:112-187 | in every run a stored status that says Ready comes with an entry at the Route's key, and that entry was the Function's spec at a generation between the observed and the current one |
| Theorems.ReadyAndObservedIsCurrent | pkg/reconciler/functions/functions.go:112-187 | in every run, when a stored Function is Ready and has observed its current generation, the entry at its key is its current spec |
| Theorems.RecordedWasStored | pkg/reconciler/functions/functions.go:98-110 | a spec that the log gives for a generation was really stored with that generation at some point of the run |
| Theorems.StoredStatusIsCoherent | pkg/reconciler/functions/functions.go:112-125 | in every run each stored status has one condition per type, and Ready holds exactly when both dependents hold |
| Theorems.AnnotationIsACommittedVersion | pkg/reconciler/functions/functions.go:323-331 | with both reconcilers interleaved the annotation is a version under which the ConfigMap was stored, never newer than the current one |
| Theorems.AnnotationNeverGoesBack | pkg/reconciler/functions/functions.go:142-178 | in every continuation without CRD commits the annotation never decreases and the image stays, whatever the listers return |
| Theorems.StepKeepsService | pkg/reconciler/functions/functions.go:323-331 | a step that is no CRD commit neither lowers the annotation nor changes the image |
| Theorems.ImageIsTheLastCommitted | pkg/reconciler/crds/crds.go:146-173 | in every run the stored image is the one of the last committed CRD reconcile |
| Theorems.CrdLowersOnlyAfterACommit | pkg/reconciler/crds/crds.go:96-101 | a CRD write that lowers the annotation happens only if the ConfigMap was committed after that reconcile read it |
| Theorems.CrdWrites | pkg/reconciler/crds/crds.go:169-173 | a CRD update leaves exactly the version it read earlier and its image on the stored Service |
| Theorems.AnnotationGoesBackExactly | pkg/reconciler/crds/crds.go:115-173 | a step lowers the annotation if and only if it is the applied update of a CRD reconcile that read an older ConfigMap version than the annotation names |
| Theorems.NeverPanics | pkg/reconciler/functions/functions.go:249-288 | in every run the configuration file decodes to an object and the annotation map is there, so no reconcile writes to a nil map, misses a part of the host or follows a nil address |
| Reports.FailureIsReported | pkg/reconciler/functions/functions.go:112-187 | after every reply that makes a reconcile fail, at any stage and in any run, the condition of that stage is False with its reason and message, all else of the status is kept, the status is written unless it says so already, and the error is returned |
| Reports.FailsExactlyOnComplaint | pkg/reconciler/functions/functions.go:142-177 | between the read of the Function and the write of its status, exactly the listed replies make a reconcile fail |
| Reports.FirstAndLastReply | pkg/reconciler/functions/functions.go:98-129 | a missing Function is no error, one being deleted ends the reconcile, else the conditions are initialized; the status write sends the new status, and its failure is an error |
| Reports.ServiceIsSentExactlyWhenBehind | pkg/reconciler/functions/functions.go:323-333 | the Service is sent exactly when its snapshot names another version than the ConfigMap, with that version and under the version of the snapshot; else the success is published at once |
| Reports.ServiceWritten | pkg/reconciler/functions/functions.go:178-187 | after the Service write the status has every synced condition True, the host written out, the URL of the Route and the generation |
| Reports.OnlyLiveFunctionsWrite | pkg/reconciler/functions/functions.go:133-137 | in every run a request that changes anything comes from a reconcile that read its Function as not being deleted |
| Reports.DeletedFunctionEndsReconcile | pkg/reconciler/functions/functions.go:99-137 | a reconcile that reads its Function as being deleted, or does not find it, ends there without error and changes nothing |
| Theorems.ReachableOk | pkg/reconciler/functions/functions.go:88-348 | the inductive invariant holds in every reachable state |
| Preservation.StepKeeps | pkg/reconciler/functions/functions.go:88-348 | every step of either reconciler, of users and of Knative keeps the invariant and takes back nothing that was recorded |
| Preservation.RunKeeps | pkg/reconciler/functions/functions.go:88-348 | so does every sequence of steps |
| Preservation.ServeKeeps | pkg/reconciler/functions/functions.go:132-188 | every request of a Function reconcile, with any reply, keeps the invariant |
| Preservation.CrdServeKeeps | pkg/reconciler/crds/crds.go:86-181 | every request of a CRD reconcile, with any reply, keeps the invariant |
| Preservation.UpdateConfigKeeps | pkg/reconciler/functions/functions.go:281-290 | the configuration write, applied, rejected as stale or with its response lost, keeps the invariant |
| Preservation.MergeFacts | pkg/reconciler/functions/functions.go:249-288 | a merge into a decodable configuration keeps its shape and sets exactly the key of the address |
| Preservation.CurrentService | pkg/reconciler/functions/functions.go:327-330 | a snapshot whose version is the stored one is the stored Service, so a write from it overwrites nothing of others |
| Invariant.RunStable | pkg/reconciler/functions/functions.go:132-188 | what a reconcile in flight holds stays true while others act |
| ConfigWrites.SkippingRefinesAlwaysWriting | pkg/reconciler/functions/functions.go:246-294 | for any content, comparing first and always writing end in the same store, return the same ConfigMap and fail in the same cases; without an Update the merged content is the content read |
| ConfigWrites.SkippedWriteIsSimulated | pkg/reconciler/functions/functions.go:275-294 | in the protocol a skipped write leads to the same store and phase as the read and write of an always-writing reconcile |
| ConfigWrites.EverySkippingRunIsMatched | pkg/reconciler/functions/functions.go:246-294 | every run that skips writes is matched by an always-writing run that ends with the same store, the same reconciles in flight and the same confirmations |
| Convergence.PassSettles | pkg/reconciler/functions/functions.go:132-188 | after one pass over Functions with ready Routes, each has its spec at its key and the final status that its old status leads to, the annotation is the current version, and no other Function, entry, Route or part of the Service changed |
| Convergence.OrderDoesNotMatter | pkg/reconciler/functions/functions.go:236-290 | passes over the same Functions in any two orders give the same configuration and the same Functions with the same statuses, up to their versions |
| Convergence.SecondPassIsIdle | pkg/reconciler/functions/functions.go:115-119 | a further pass in whatever order changes no content, version or status |
| Convergence.IdlePass | pkg/reconciler/functions/functions.go:246-334 | a pass leaves the whole store alone when entries, statuses and annotation are up to date |
| Convergence.PassMakesReady | pkg/reconciler/functions/functions.go:171-187 | after a pass every Function has every condition True and publishes its generation, the URL of its Route and the address with the host written out |
| Convergence.PassIsARun | pkg/reconciler/functions/functions.go:88-130 | a pass is a run of the protocol |
| Convergence.ReconcileSettles | pkg/reconciler/functions/functions.go:132-188 | a reconcile that runs alone ends without error and leaves exactly the settled store |
| Convergence.ReconcileIsARun | pkg/reconciler/functions/functions.go:88-130 | a reconcile that runs alone ends and disturbs no other reconcile |
| Convergence.RankFalls | pkg/reconciler/functions/functions.go:132-188 | every reply moves a reconcile strictly forward, so it makes at most eight requests |
| Convergence.FinalStatusIsFinal | pkg/reconciler/functions/functions.go:107-120 | a successful reconcile after a successful reconcile finds nothing to write to the status |
| Convergence.SettledStoreIdle | pkg/reconciler/functions/functions.go:326-333 | reconciling a Function that is up to date leaves the store as it is |
| Convergence.MergeData | pkg/reconciler/functions/functions.go:270-290 | keeping the object and writing the merged content are the same content |
| Convergence.AnnotationCanGoBack | pkg/reconciler/crds/crds.go:115-173 | from any settled state in which a CRD reconcile holds the current ConfigMap version and a Function's entry is not up to date, the annotation can be lowered |
| Setbacks.MissingServiceIsReported | pkg/reconciler/functions/functions.go:142-146 | without a Service a reconcile stores ServiceReady False CheckExistFailed and nothing else, and makes exactly the requests listed |
| Setbacks.UnreadyServiceIsReported | pkg/reconciler/functions/functions.go:310-319 | with an unready Service it stores ServiceReady False with the Service's reason, or Unknown without one, and nothing else |
| Setbacks.BadRouteIsReported | pkg/reconciler/functions/functions.go:155-164 | with a Route of another owner or an unready Route it stores RouteReady False with the reason, and nothing else |
| Setbacks.MissingRouteIsCreated | pkg/reconciler/functions/functions.go:196-207 | a missing Route is created under kind-namespace-name for the Function, and reported as not ready |
| Setbacks.MissingConfigIsReported | pkg/reconciler/functions/functions.go:142-170 | a missing ConfigMap implies a missing Service, which is what is reported |
| Setbacks.DeletedIsLeftAlone | pkg/reconciler/functions/functions.go:99-137 | a Function that is missing or being deleted is only read, and nothing changes |
| Setbacks.IdleReconcileOnlyReads | pkg/reconciler/functions/functions.go:275-333 | with nothing left to do a reconcile makes the four reads and no write, or with the comparison as coded one write of the ConfigMap as read |
| Setbacks.AtMostEightRequests | pkg/reconciler/functions/functions.go:88-130 | a reconcile that runs alone makes at most eight requests |
| CrdAlone.WantedServiceIsNotWritten | pkg/reconciler/crds/crds.go:169-180 | in any run a listed Service with the wanted spec ends the reconcile without error and without a write, whatever is stored by then |
| CrdAlone.FailsExactlyWhenRefused | pkg/reconciler/crds/crds.go:110-180 | exactly a failed request, a missing CRD and a missing image end a CRD reconcile with an error, at once |
| CrdAlone.Settles | pkg/reconciler/crds/crds.go:86-181 | a CRD reconcile that runs alone leaves ConfigMap and Service as wanted, and makes exactly the reads and the writes for what was missing or wrong |
| CrdAlone.SecondIsIdle | pkg/reconciler/crds/crds.go:110-181 | a reconcile of the same image after it makes the three reads and no write, and changes nothing |
| CrdAlone.MissingImageIsAnError | pkg/reconciler/crds/crds.go:146-150 | without the image annotation the ConfigMap is made, nothing else happens, and the error is returned |
| Witness.AnnotationGoesBackInSomeRun | pkg/reconciler/crds/crds.go:115-173 | a run from the empty cluster lowers the annotation |
| Witness.OvertakingIsSettled | pkg/reconciler/functions/functions.go:142-188 | a reachable state is settled, so the convergence results are not vacuous |
| Witness.OvertakingIsReachable | pkg/reconciler/crds/crds.go:96-101 | that state is reached from the empty cluster, with a CRD reconcile standing after its ConfigMap read |
| Witness.SomeFunctionGetsReady | pkg/reconciler/functions/functions.go:171-187 | in some run from the empty cluster a Function gets Ready |
| Names.KeyMatchesAddress | pkg/reconciler/functions/functions.go:270-274 | the key read back from a host is name.namespace exactly when both are free of dots, for any cluster domain |
| Names.KeysDistinct | pkg/reconciler/functions/functions.go:272-274 | different dot-free names or namespaces give different keys |
| Names.DottedNamesShareAKey | pkg/reconciler/functions/functions.go:272-274 | Routes whose names agree up to the second dot share a key |
| Names.SplitJoined | pkg/reconciler/functions/functions.go:273 | splitting a joined string splits each side |
| Names.HostParts | pkg/reconciler/functions/functions.go:180-183 | the published host is name, namespace, svc and domain, dot by dot, for all strings |
| Names.RouteNameInjective | pkg/reconciler/functions/resources/route.go:39-41 | route names determine kind, namespace and name when namespaces, and kinds if they differ, have no hyphen |
| Names.RouteNameParts | pkg/reconciler/functions/resources/route.go:39-41 | a Route name is kind, namespace and name in this order, hyphen by hyphen |
| Names.CollidesExactlyWhenCut | pkg/reconciler/functions/resources/route.go:39-41 | among namespaces and names that Kubernetes accepts, those that can collide are exactly those whose joined name can be cut at another hyphen into accepted parts |
| Lifecycle.ReadyMeansBothVerdicts | pkg/apis/duck/v1alpha1/function_lifecycle.go:51-104 | after any sequence of calls from the empty status, conditions are unique by type and Ready holds exactly when the last verdicts on ConfigMap and address were positive |
| Lifecycle.InitializeConditions | vendor/knative.dev/pkg/apis/condition_set.go:328-363 | conditions that are set stay as they are; an unset Ready gets Unknown, an unset dependent True if Ready is True and else Unknown; nothing else is added |
| Lifecycle.MarkTrue | vendor/knative.dev/pkg/apis/condition_set.go:239-260 | the condition is True without a reason, Ready becomes True exactly when both dependents are, every other condition is found as before, coherence is kept |
| Lifecycle.MarkFalse | vendor/knative.dev/pkg/apis/condition_set.go:307-324 | the condition is False with the reason and message, Ready the same for a dependent and else untouched, every other condition is found as before, coherence is kept |
| Lifecycle.SetAddress | pkg/apis/duck/v1alpha1/function_lifecycle.go:96-104 | the address is stored; Addressable is True with a URL and else False with emptyURL, Ready follows, every other condition is found as before |
| Lifecycle.SetCondition | pkg/apis/duck/v1alpha1/function_lifecycle.go:51-56 | the condition is the one found under its type, all other types are found as before, and uniqueness is kept |
| Lifecycle.RemarkingIsIdle | pkg/apis/duck/v1alpha1/function_lifecycle.go:68-86 | marking what already holds changes nothing |
| Objects.FunctionStatus.MarkTrue | pkg/apis/duck/v1alpha1/function_lifecycle.go:68-86 | in place, exactly the effect on the value; the old list of conditions is not touched |
| Objects.FunctionStatus.MarkFalse | pkg/apis/duck/v1alpha1/function_lifecycle.go:72-94 | in place, exactly the effect on the value; the old list of conditions is not touched |
| Objects.FunctionStatus.SetAddress | pkg/apis/duck/v1alpha1/function_lifecycle.go:96-104 | in place, exactly the effect on the value, with a fresh address object around the given URL |
| Objects.FunctionStatus.DeepCopyInto | pkg/apis/duck/v1alpha1/zz_generated.deepcopy.go:95-109 | the copy is equal, the source unchanged, and everything reachable from the copy is fresh |
| Objects.ObjectMeta.DeepCopyInto | vendor/k8s.io/apimachinery/pkg/apis/meta/v1/zz_generated.deepcopy.go:691-742 | labels, annotations, owner references and finalizers are equal, nil where they were nil, and fresh |
| Objects.FunctionObject.DeepCopyInto | pkg/apis/duck/v1alpha1/zz_generated.deepcopy.go:30-41 | the same for a whole Function with its metadata, with or without a spec |
| Objects.FunctionObject.DeepCopy | pkg/apis/duck/v1alpha1/zz_generated.deepcopy.go:44-51 | an equal Function with equal metadata, made of fresh objects only |
| Objects.FunctionList.DeepCopyInto | pkg/apis/duck/v1alpha1/zz_generated.deepcopy.go:62-74 | for lists of any length, item by item equal and fresh, no two items sharing an object; a nil list stays nil |
| Objects.PerformOnCopy | pkg/reconciler/functions/functions.go:107-114 | no sequence of status calls on a deep copy changes the original, and the copy gets exactly their effect |
| World.World.Call | pkg/reconciler/functions/functions.go:98-348 | one request among arbitrary steps of others moves the reconcile to the phase after the reply, along a run of the protocol, and leaves the lister's objects alone |
| World.World.CrdCall | pkg/reconciler/crds/crds.go:115-173 | the same for a CRD reconcile; a Service that is returned by a write has the spec that was sent |
| World.World.Cached | pkg/reconciler/functions/functions.go:301-307 | the lister hands out its own object for a stored Service, the same one for the same version |
| World.World.Interfere | pkg/reconciler/functions/functions.go:98-348 | any steps of others keep the invariant and leave the caller's phase alone |
| FunctionReconciler.FunctionReconciler.Reconcile | pkg/reconciler/functions/functions.go:88-130 | a call is one complete reconcile of the protocol; if it returns no error and the Function is still there and not deleted, the configuration holds at its key a generation at least as new as at the time of the call; a Function being deleted is only read; every object in the lister's cache is what it was |
| FunctionReconciler.FunctionReconciler.Fetch | pkg/reconciler/functions/functions.go:98-108 | reads the Function into fresh objects; a missing Function ends the reconcile without error |
| FunctionReconciler.FunctionReconciler.ReconcileCopy | pkg/reconciler/functions/functions.go:107-129 | the work is done on a deep copy and ends the reconcile; without error the Function's generation is in the configuration; a Function being deleted is left alone |
| FunctionReconciler.FunctionReconciler.WriteBack | pkg/reconciler/functions/functions.go:115-129 | exactly one status request when the status differs from the one read, also after a failure, and none otherwise; success needs both the reconcile and the write to succeed |
| FunctionReconciler.FunctionReconciler.ReconcileObject | pkg/reconciler/functions/functions.go:132-188 | performs the phases of a reconcile and changes nothing of the Function but its status; for one being deleted it makes no request, changes nothing and returns no error |
| FunctionReconciler.FunctionReconciler.CheckServiceAndRoute | pkg/reconciler/functions/functions.go:142-164 | up to a ready Service and a ready own Route, or the status that says which is missing |
| FunctionReconciler.FunctionReconciler.CheckReadyService | pkg/reconciler/functions/functions.go:142-151 | a ready Service of the lister, or the conclusion with the status that says why not |
| FunctionReconciler.FunctionReconciler.FindReadyRoute | pkg/reconciler/functions/functions.go:155-164 | a ready Route of the Function's own, or the conclusion with the status that says why not |
| FunctionReconciler.FunctionReconciler.SyncAndPublish | pkg/reconciler/functions/functions.go:166-187 | configuration, then Service, then the published status; without error the generation is in the configuration |
| FunctionReconciler.FunctionReconciler.SyncConfig | pkg/reconciler/functions/functions.go:166-171 | the ConfigMap with the entry and the condition marked, or the conclusion with the error |
| FunctionReconciler.FunctionReconciler.SyncService | pkg/reconciler/functions/functions.go:173-187 | the annotated Service and then the published status, or the conclusion with the error |
| FunctionReconciler.FunctionReconciler.Publish | pkg/reconciler/functions/functions.go:178-186 | the address of the Route, its URL and the generation end up in the status |
| FunctionReconciler.FunctionReconciler.CheckService | pkg/reconciler/functions/functions.go:297-308 | returns a lister's Service or the error, and moves to the phase that follows |
| FunctionReconciler.FunctionReconciler.PropagateServiceStatusIfError | pkg/reconciler/functions/functions.go:310-321 | an unready Service is an error with its reason in the status |
| FunctionReconciler.FunctionReconciler.ReconcileRoute | pkg/reconciler/functions/functions.go:190-220 | returns a Route of the right name that the Function owns, created if the lister misses it, or an error |
| FunctionReconciler.FunctionReconciler.PropagateRouteStatus | pkg/reconciler/functions/functions.go:222-234 | an unready Route is an error with its reason in the status, a ready one is marked |
| FunctionReconciler.FunctionReconciler.MergeInto | pkg/reconciler/functions/functions.go:247-288 | the edit in place, with its update flag, is the merge: untouched without the flag, the merged ConfigMap under the version read with it, an error on malformed text |
| FunctionReconciler.FunctionReconciler.ReconcileConfig | pkg/reconciler/functions/functions.go:236-295 | returns the ConfigMap that holds the entry, with the Function's generation confirmed, or an error; after the read it sends the merged ConfigMap exactly when the merge rewrites it |
| FunctionReconciler.FunctionReconciler.ReconcileService | pkg/reconciler/functions/functions.go:323-334 | one update of a deep copy with the annotation when the version differs, no request and no error when it does not; the lister's object stays as it is |
| FunctionReconciler.SuccessIsBacked | pkg/reconciler/functions/functions.go:132-188 | what a successful reconcile confirmed covers the generation at the time of the call |
| FunctionReconciler.NoPanic | pkg/reconciler/functions/functions.go:270-276 | no reconcile of a reachable state has panicked |
| CrdReconciler.CrdReconciler.Reconcile | pkg/reconciler/crds/crds.go:71-108 | nothing for a missing or deleted CRD, else one complete reconcile of the protocol; without error a Service was stored whose spec is made from exactly the ConfigMap and the image answered to this reconcile, and that ConfigMap is not older than at the time of the call; every object in the lister's cache is what it was |
| CrdReconciler.CrdReconciler.ReconcileConfig | pkg/reconciler/crds/crds.go:110-135 | returns the ConfigMap answered by the read or the create, not older than at the time of the call, or the error |
| CrdReconciler.CrdReconciler.ReadImage | pkg/reconciler/crds/crds.go:140-150 | returns the image that the lister answered for the CRD, or an error when the CRD or its annotation is missing |
| CrdReconciler.CrdReconciler.ReconcileService | pkg/reconciler/crds/crds.go:137-181 | the returned Service really was stored, with exactly the version of the given ConfigMap and the image that the CRD lister answered |
| CrdReconciler.CrdReconciler.WriteService | pkg/reconciler/crds/crds.go:154-180 | exactly one create for a missing Service and one update for one with another spec; the lister's own object is returned without a request when it has the wanted spec; what is returned was stored with exactly that spec |
| CrdReconciler.CrdReconciler.OverwriteService | pkg/reconciler/crds/crds.go:169-178 | the update is sent from a deep copy: the lister's object is what it was, and so is the whole cache |
| CrdReconciler.CrdReconciler.SendService | pkg/reconciler/crds/crds.go:159-180 | a create or update that is answered leaves a stored Service with the spec that was sent |
| ClusterObjects.ServiceObject.SetSpec | pkg/reconciler/crds/crds.go:171 | the object takes over the whole expected spec and nothing else of it |
| CrdReconciler.MakeKnativeService | pkg/reconciler/crds/resources/ksvc.go:28-76 | a fresh Service of the given name with the version annotation in its own map, the image, the kind's ConfigMap as volume, and that volume's configuration file mounted |
| InformerFactory.EveryRun | pkg/dynamic/dynamicinformer/informer.go:66-115 | in every sequence of calls a resource keeps its informer, informers are run once when started and never otherwise, and the started resources are exactly those known at the last Start |
| InformerFactory.SameInformer | pkg/dynamic/dynamicinformer/informer.go:66-80 | two requests for a resource, at any two moments, get the same informer |
| InformerFactory.CallKeeps | pkg/dynamic/dynamicinformer/informer.go:66-115 | every call keeps the table sound; right after Start the started resources are the known ones |
| InformerFactory.Factory.ForResource | pkg/dynamic/dynamicinformer/informer.go:66-80 | returns the informer in the table, a fresh one only for a new resource |
| InformerFactory.Factory.Start | pkg/dynamic/dynamicinformer/informer.go:83-93 | runs exactly the informers that were not run before |
| InformerFactory.Factory.WaitForCacheSync | pkg/dynamic/dynamicinformer/informer.go:96-115 | reports exactly the resources started at its snapshot, each with the outcome of its informer |
| Startup.BuildControllers | cmd/controller/main.go:75-89 | the CRD controller and one function controller, one name and one informer for each listed CRD, in order |
| Startup.Filter | cmd/controller/main.go:106-122 | passes exactly the labelled CRDs whose name is not among the names |
| Startup.Process.Deliver | cmd/controller/main.go:104-138 | the process exits exactly on a notification that shows an unlisted labelled CRD before or after the change |
| Startup.ObservedAreListedOrRestart | cmd/controller/main.go:91-95 | in every run each labelled CRD that the informer holds is listed or the process has exited, and it exits exactly when it observes an unlisted labelled CRD |
| Startup.CompleteListNeverRestarts | cmd/controller/main.go:104-138 | a process that started from a complete list never exits while the set of labelled CRDs stays |
| Startup.NewCrdRestarts | cmd/controller/main.go:104-130 | at any moment an unlisted labelled CRD in the cluster can be observed, and observing it ends the process |

## Left out

- Invalid resource keys (`SplitMetaNamespaceKey`): the reconcile starts from a namespace and a name.
- The text of errors: an error reply keeps its message, without the prefixes the code adds. Logging and events.
- JSON syntax: a configuration text is malformed, null or an object whose values are compared by their canonical text.
- The options of `MakeRoute` (no caller passes any), labels and the traffic target of a Route.
- Routes as heap objects: they are values here, so that the status shares a URL object with the Route is not captured.
- Timestamps, severities and the order of conditions: a changed condition moves to the end of the list.
- Nil and empty lists of conditions are one value, as in the comparison at line 115.
- FunctionReconciler.FunctionReconciler.ReconcileObject: its body is split into a few methods that the code has in one function.
- Theorems.NoLostUpdate: entries of other Functions are kept as values; that decoding and encoding rounds integers beyond 2^53 is not captured.
- Theorems.EntriesPersist: the same rounding is not captured.
- Objects.FunctionObject.DeepCopyInto: metadata is labels, annotations, owner references and finalizers; initializers, managed fields, timestamps and the grace period are not there, and being deleted is a flag.
- CrdReconciler.MakeKnativeService: type metadata and the constant namespace are not part of the object.
- World.World.Cached: only Services are objects of a lister cache; Routes and CRDs from a lister are values, which nothing can write.
- Objects.FunctionList.DeepCopyInto: the items are collected in a sequence before the array is made, and each is a reference where the code has a struct in the array.
- InformerFactory.Factory.Start: `Run` goes on in a goroutine of its own; only that it was started is recorded.
- InformerFactory.Factory.WaitForCacheSync: the outcome of each informer is a parameter.
- The namespace argument of the filtered factory constructor, which the code ignores.
- Clean-up: the code removes no configuration entry of a deleted Function, and nothing is claimed about removal.
- Liveness under interference: no claim that a reconcile that keeps being overtaken ever succeeds.
- The dynamic listers and shims, the injection plumbing, work queues and retries.
- Command line flags, environment and fatal errors of `main` before the controllers are built.
