# vertical-pod-autoscaler-operator: the Reconciler, in Dafny

This project models the Reconciler of the vertical-pod-autoscaler operator. The
Reconciler keeps one "recommender" Deployment in line with the singleton
VerticalPodAutoscalerController resource. On each request it does the following:

1. It reads the resource. If the resource is gone, it does nothing.
2. It reads the Deployment named `vpa-recommender-<resource name>` in the
   configured namespace.
3. If that Deployment is absent, it creates the expected one.
4. If it is present, it sends an Update of the refreshed Deployment: the
   expected pod spec and the two annotations. The code's test for skipping an
   unneeded Update never holds (see "## Findings").
5. It records a Normal or Warning event for the outcome.

Files:

- `kube.dfy` (module `Kube`) holds the Kubernetes values the controller
  handles: object metadata, Deployments, pod specs, tolerations, object and
  owner references, events, and the custom resource.
- `store.dfy` (module `Store`) holds the cluster as seen through the client. It
  is a map from namespace and name to resources and Deployments. Get, create and
  update requests end in success, `NotFound`, `AlreadyExists` or another
  failure. A fault script decides which requests meet a transient failure: each
  request consumes one entry, and an empty script means no failures. Every write
  request is logged. `Client` and `Recorder` are the classes the Reconciler
  calls. The recorder's event log is append-only.
- `controller.dfy` (module `VerticalPodAutoscaler`) holds the Config, the pure
  builders, the watch-event name filter, the specification functions `Created`,
  `Updated` and `Reconciled`, and the `Reconciler` class. The class's `config`
  field is replaced by `SetConfig`. Its `comparison` constant selects the
  pod-spec test that UpdateAutoscaler makes: the one in the code (`AsWritten`)
  or the intended one (`Intended`). Its methods change the client and the
  recorder, and each method is proved equal to its specification function.
- `properties.dfy` (module `VerticalPodAutoscalerProperties`) holds the lemmas.
  They cover each branch of Reconcile, the annotation and Deployment shape,
  and repeated reconciles. Under both tests they cover convergence and the
  Update sent on every resync. Under the intended test they cover the fixed
  point.

Four library calls are outside this model. They are passed to the Reconciler
as functions in the `Foreign` record:

- `RecommenderArgs`
- `util.ReleaseVersionMatches`
- `reference.GetReference`
- `controllerutil.SetControllerReference`, which can fail

`equality.Semantic.DeepEqual` is modelled as structural equality. Under it, nil
and empty slices and maps compare equal.

Three behaviours of the code that are easy to miss:

- Outside `RecommenderArgs`, `Reconcile` never reads `config.Name`. Only the
  watch predicates filter by name (`NamePredicate`), and
  `ReconcileIgnoresConfiguredName` proves it.
- The `vertical-pod-autoscaler` label of the Deployment's pod template carries
  the resource's name.
- The release-version test is applied to the resource, not to the Deployment
  (`util.ReleaseVersionMatches(vpa, …)`). The model keeps this.
  `FoundDeploymentRewrittenEveryResync` shows the consequence: while the test
  fails, every reconcile sends an Update, even under the intended pod-spec test.

## Model

| member | source | states |
|---|---|---|
| `Store.ReadDeployment` | pkg/controller/verticalpodautoscaler/verticalpodautoscaler_controller.go:247-256 | A successful read returns the Deployment stored under the key. With no injected fault, the read fails exactly when the key is absent, and then with NotFound. |
| `Store.CreateDeployment` | pkg/controller/verticalpodautoscaler/verticalpodautoscaler_controller.go:217 | The create request is logged. It succeeds iff there is no fault and the name is free. Success stores the Deployment under its own name; failure leaves the store unchanged. A well-formed store stays well formed. |
| `Store.UpdateDeployment` | pkg/controller/verticalpodautoscaler/verticalpodautoscaler_controller.go:242 | The update request is logged. It succeeds iff there is no fault and the name exists. Success replaces the stored Deployment; failure changes nothing. |
| `Store.CreateThenRead` | pkg/controller/verticalpodautoscaler/verticalpodautoscaler_controller.go:217 | Reading back a created Deployment returns it. |
| `Store.ReadVpa` | pkg/controller/verticalpodautoscaler/verticalpodautoscaler_controller.go:127-141 | A successful read returns the resource stored under the key. With no injected fault, the read fails exactly when the key is absent, and then with NotFound. |
| `VerticalPodAutoscaler.NamePredicate` | pkg/controller/verticalpodautoscaler/verticalpodautoscaler_controller.go:196-203 | An object is admitted iff its name equals `config.Name`. Its namespace, labels and annotations play no part. |
| `VerticalPodAutoscaler.Admits` | pkg/controller/verticalpodautoscaler/verticalpodautoscaler_controller.go:85-98 | Create, delete and generic events pass iff the object's name equals `config.Name`. An update event is judged by the new object's name only. |
| `VerticalPodAutoscaler.RecommenderName` | pkg/controller/verticalpodautoscaler/verticalpodautoscaler_controller.go:260-265 | The Deployment lives in the configured namespace, not the resource's, and is named `vpa-recommender-` followed by the resource's name. |
| `VerticalPodAutoscaler.WithControllerReference` | pkg/controller/verticalpodautoscaler/verticalpodautoscaler_controller.go:213-215 | The resource becomes the Deployment's only owner reference. Name, namespace, labels, annotations and spec are unchanged. |
| `VerticalPodAutoscaler.Reconciled` | pkg/controller/verticalpodautoscaler/verticalpodautoscaler_controller.go:122-186 | Exactly one event is recorded once the resource has been read, and none before. That event is a Warning iff an error is returned. A resource that is not found gives no error. |
| `VerticalPodAutoscaler.ExpectedAnnotations` | pkg/controller/verticalpodautoscaler/verticalpodautoscaler_controller.go:269-280 | Afterwards critical-pod maps to "" and release-version to the configured version. Every other key keeps its value, and no other key is added. A nil map is treated as empty. |
| `VerticalPodAutoscaler.Reconciler.UpdateAnnotations` | pkg/controller/verticalpodautoscaler/verticalpodautoscaler_controller.go:269-280 | The object's annotations become `ExpectedAnnotations` of the old ones under the current config's release version. No other metadata changes. |
| `VerticalPodAutoscaler.RecommenderPodSpec` | pkg/controller/verticalpodautoscaler/verticalpodautoscaler_controller.go:330-367 | Fixed service account and priority class. The node selector is exactly master "" and os "linux". One container with image `config.Image` and command `["recommender"]`. Its args are `RecommenderArgs`, followed by ExtraArgs as one last element only when ExtraArgs is non-empty. Two Exists tolerations: CriticalAddonsOnly, and master with NoSchedule. |
| `VerticalPodAutoscaler.AutoscalerDeployment` | pkg/controller/verticalpodautoscaler/verticalpodautoscaler_controller.go:284-326 | Named `vpa-recommender-<name>` in `config.Namespace`, with replicas 1. The selector equals the template labels. Deployment and template carry the same annotations, already in UpdateAnnotations' form. The template runs `RecommenderPodSpec`. The Deployment has no labels of its own and no owner yet. The template has no name, namespace or owners. |
| `VerticalPodAutoscaler.Refreshed` | pkg/controller/verticalpodautoscaler/verticalpodautoscaler_controller.go:237-240 | The pod spec becomes the expected one, and both annotation sets are refreshed. Labels, replicas, selector, name, namespace and owners are kept. |
| `VerticalPodAutoscaler.ObjectReferenceFor` | pkg/controller/verticalpodautoscaler/verticalpodautoscaler_controller.go:373-385 | None exactly when reference construction fails. An empty namespace becomes `config.Namespace` and a non-empty one is kept. Kind, APIVersion, Name and UID are unchanged. |
| `VerticalPodAutoscaler.SemanticDeepEqual` | pkg/controller/verticalpodautoscaler/verticalpodautoscaler_controller.go:232 | Two arguments are equal iff their dynamic types agree (PodSpec value or *PodSpec) and their contents are equal. |
| `VerticalPodAutoscaler.SpecUnchanged` | pkg/controller/verticalpodautoscaler/verticalpodautoscaler_controller.go:228-232 | As written, the existing value is compared with the expected pointer, so the test never holds. The intended test holds iff the two pod specs are equal. |
| `VerticalPodAutoscaler.Created` | pkg/controller/verticalpodautoscaler/verticalpodautoscaler_controller.go:207-218 | CreateAutoscaler never touches the resources, keeps the store well formed, and sends at most one write. |
| `VerticalPodAutoscaler.Updated` | pkg/controller/verticalpodautoscaler/verticalpodautoscaler_controller.go:222-243 | UpdateAutoscaler never touches the resources, keeps the store well formed, and sends at most one write. |
| `VerticalPodAutoscaler.Reconciler.SetConfig` | pkg/controller/verticalpodautoscaler/verticalpodautoscaler_controller.go:188-191 | Replaces the configuration. |
| `VerticalPodAutoscaler.Reconciler.GetAutoscaler` | pkg/controller/verticalpodautoscaler/verticalpodautoscaler_controller.go:247-256 | Reads the Deployment under `RecommenderName`. |
| `VerticalPodAutoscaler.Reconciler.CreateAutoscaler` | pkg/controller/verticalpodautoscaler/verticalpodautoscaler_controller.go:207-218 | The result and new store are `Created`: the owner-reference error, or the create request for `AutoscalerDeployment` with the resource as its controller owner. |
| `VerticalPodAutoscaler.Reconciler.UpdateAutoscaler` | pkg/controller/verticalpodautoscaler/verticalpodautoscaler_controller.go:222-243 | The result and new store are `Updated` under the reconciler's pod-spec test. A read error is returned. There is no write only when `SpecUnchanged` holds and the resource's release version matches, which never happens as written. Otherwise one update of the refreshed Deployment is sent. |
| `VerticalPodAutoscaler.Reconciler.Reconcile` | pkg/controller/verticalpodautoscaler/verticalpodautoscaler_controller.go:122-186 | Always returns the empty result. Its error, the new store and the events appended to the log are those of `Reconciled`. |
| `VerticalPodAutoscalerProperties.RecommenderNameInjective` | pkg/controller/verticalpodautoscaler/verticalpodautoscaler_controller.go:260-265 | Two resources with the same Deployment name have the same name, so each resource has its own Deployment. |
| `VerticalPodAutoscalerProperties.ExpectedAnnotationsIdempotent` | pkg/controller/verticalpodautoscaler/verticalpodautoscaler_controller.go:269-280 | Applying UpdateAnnotations twice gives the same map as applying it once. |
| `VerticalPodAutoscalerProperties.NilAnnotationsAreEmpty` | pkg/controller/verticalpodautoscaler/verticalpodautoscaler_controller.go:272-274 | A nil annotations map gives the same result as an empty one. |
| `VerticalPodAutoscalerProperties.ExpectedAnnotationsOfOwnedKeys` | pkg/controller/verticalpodautoscaler/verticalpodautoscaler_test.go:266-323 | If the only keys present are the controller's two, with any values, the result is exactly the two expected entries. |
| `VerticalPodAutoscalerProperties.RefreshedIdempotent` | pkg/controller/verticalpodautoscaler/verticalpodautoscaler_controller.go:237-240 | Refreshing an already refreshed Deployment changes nothing. |
| `VerticalPodAutoscalerProperties.VpaReadFailure` | pkg/controller/verticalpodautoscaler/verticalpodautoscaler_controller.go:127-141 | If the resource is not found, the result is success with no write and no event. Any other read error is returned unchanged, also with no write and no event. |
| `VerticalPodAutoscalerProperties.DeploymentReadFailure` | pkg/controller/verticalpodautoscaler/verticalpodautoscaler_controller.go:148-155 | A Deployment read error other than NotFound gives one Warning FailedGetDeployment event and returns the error. The store is unchanged. |
| `VerticalPodAutoscalerProperties.AbsentDeploymentCreated` | pkg/controller/verticalpodautoscaler/verticalpodautoscaler_controller.go:157-171 | If the Deployment is absent, exactly one create request is sent, for the expected Deployment with its owner. The returned error is that create request's own outcome. A success gives Normal SuccessfulCreate and stores the Deployment. A failure gives Warning FailedCreate. An owner-reference failure is reported as FailedCreate with nothing sent. |
| `VerticalPodAutoscalerProperties.CreateSucceedsWithoutFaults` | pkg/controller/verticalpodautoscaler/verticalpodautoscaler_test.go:188-194 | With no store failures, a missing Deployment is created, the call returns no error, and SuccessfulCreate is recorded. |
| `VerticalPodAutoscalerProperties.UpdateReadFailure` | pkg/controller/verticalpodautoscaler/verticalpodautoscaler_controller.go:223-226 | If UpdateAutoscaler's second read fails, the result is Warning FailedUpdate and the error, with nothing written. |
| `VerticalPodAutoscalerProperties.PresentDeploymentUpdated` | pkg/controller/verticalpodautoscaler/verticalpodautoscaler_controller.go:173-185 | When the pod-spec test holds and the release version matches, no Update is sent and the store is unchanged, yet SuccessfulUpdate is recorded. Otherwise exactly one Update of the refreshed Deployment is sent. The returned error is that request's own outcome, which picks SuccessfulUpdate (stored) or FailedUpdate (store unchanged). As written, a found Deployment always gets that one Update. |
| `VerticalPodAutoscalerProperties.ReconcileFrame` | pkg/controller/verticalpodautoscaler/verticalpodautoscaler_controller.go:122-186 | Resources are never written, and the store stays well formed. At most one write is sent. Exactly one event is recorded iff the resource was read. |
| `VerticalPodAutoscalerProperties.ReconcileIgnoresConfiguredName` | pkg/controller/verticalpodautoscaler/verticalpodautoscaler_controller.go:122-186 | Reconcile's outcome does not depend on `config.Name`, provided RecommenderArgs does not read it. The name filter acts only on watch events. |
| `VerticalPodAutoscalerProperties.CreatedIgnoresConfiguredName` | pkg/controller/verticalpodautoscaler/verticalpodautoscaler_controller.go:207-218 | CreateAutoscaler's outcome does not depend on `config.Name`, provided RecommenderArgs does not read it. |
| `VerticalPodAutoscalerProperties.UpdatedIgnoresConfiguredName` | pkg/controller/verticalpodautoscaler/verticalpodautoscaler_controller.go:222-243 | UpdateAutoscaler's outcome does not depend on `config.Name`, provided RecommenderArgs does not read it. |
| `VerticalPodAutoscalerProperties.ReconcileConverges` | pkg/controller/verticalpodautoscaler/verticalpodautoscaler_controller.go:157-185 | With no store failures, one reconcile succeeds and leaves the expected pod spec in place. This holds for a missing Deployment and for a drifted one, provided the owner can be set and the release version matches. |
| `VerticalPodAutoscalerProperties.ConvergedIsFixedPoint` | pkg/controller/verticalpodautoscaler/verticalpodautoscaler_controller.go:231-234 | With the intended pod-spec test, once converged, any number of further reconciles leave the store unchanged and send no write. Each one records SuccessfulUpdate. |
| `VerticalPodAutoscalerProperties.FoundDeploymentRewritten` | pkg/controller/verticalpodautoscaler/verticalpodautoscaler_controller.go:228-242 | One fault-free reconcile that finds the Deployment stores its refreshed version with one Update. This holds under the code's pod-spec test, and under either test while the release version mismatches. |
| `VerticalPodAutoscalerProperties.FoundDeploymentRewrittenEveryResync` | pkg/controller/verticalpodautoscaler/verticalpodautoscaler_controller.go:228-242 | Under the same conditions, each of n reconciles sends one Update of the same refreshed Deployment, and none returns an error. |
| `VerticalPodAutoscalerProperties.ConvergedStillUpdatedAsWritten` | pkg/controller/verticalpodautoscaler/verticalpodautoscaler_controller.go:228-242 | As written, from a converged store the next reconcile still sends an Update, of a Deployment whose pod spec is already the expected one. |

## Left out

- `NewReconciler` and `AddToManager` are left out. They wire the controller
  into controller-runtime: manager, watches and handlers. Only their name
  predicates are modelled, as `Admits`.
- Watch dispatch, requeueing, retry with backoff, and concurrency are left out.
  The external framework provides them.
- `RecommenderArgs`, with its `%.1f` and `%.0f` float formatting, is left out.
  Its file is not part of this model, so it is a parameter. The argument-list
  example for fixed tuning values is therefore not stated.
- The bodies of `util.ReleaseVersionMatches`, `reference.GetReference` and
  `controllerutil.SetControllerReference` are left out. They are parameters.
  The owner reference is stored as an opaque value that replaces the new
  Deployment's empty owner list.
- The values of `util.CriticalPodAnnotation` and `util.ReleaseVersionAnnotation`
  are left out, because `pkg/util` is not part of this model. The values used
  here are stand-ins, and the proofs rely only on the two keys being different.
- klog logging and event message texts are left out. Events are (type, reason,
  involved reference).
- What the recorder does with a nil reference is left out. The model records
  the recorder call either way.
- The client's cache, resource versions, conflicts and server-side defaulting
  are left out. Pod spec fields that the controller never sets are not
  modelled.
- `ConvergedIsFixedPoint` holds only for the intended pod-spec test, and only
  for a store that returns a written pod spec unchanged. The intended test
  compares two whole pod specs. Suppose the API server fills in defaulted or
  externally set fields, such as restartPolicy, dnsPolicy or a container's
  imagePullPolicy. Then even that test fails on every resync. The model does
  not capture defaulting.
- The Reconciler's `scheme` field is left out. It is used only by the foreign
  calls.
- `Reconciler.UpdateAnnotations` does not update the object through the
  `metav1.Object` interface. It returns the updated metadata, and its two
  callers write it back. Dafny has no interfaces here, so the aliasing between
  the object and the caller's copy is not captured.
- The resource's tuning fields are modelled as exact reals rather than float64.
  Only `RecommenderArgs` reads them.
- The 64-bit width of `Config.Verbosity` is not modelled. The field is never
  read here.

## Findings

| source | as written | input that shows it | evidently intended | confidence | as-written member | corrected member |
|---|---|---|---|---|---|---|
| pkg/controller/verticalpodautoscaler/verticalpodautoscaler_controller.go:228-234 | `equality.Semantic.DeepEqual(existingSpec, expectedSpec)` compares a `corev1.PodSpec` value with the `*corev1.PodSpec` that `RecommenderPodSpec` returns. The dynamic types differ, so the test is always false, the early return never runs, and every reconcile that finds the Deployment sends an Update. | A stored Deployment already running the expected pod spec, with a resource whose release version matches: the reconcile still sends an Update. | Skip the Update when the existing pod spec equals the expected one and the release version matches (compare `existingSpec` with `*expectedSpec`). | high; not executed | `VerticalPodAutoscalerProperties.ConvergedStillUpdatedAsWritten` | `VerticalPodAutoscalerProperties.ConvergedIsFixedPoint` |
