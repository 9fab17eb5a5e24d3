/**
 * The Reconciler of the vertical-pod-autoscaler operator: it keeps one
 * "recommender" Deployment in line with the singleton
 * VerticalPodAutoscalerController resource.
 *
 * The pure part builds the expected Deployment and pod spec from the Config and
 * the resource, filters watch events by name, and substitutes the namespace of
 * event references. The state-changing part is the Reconciler class, whose
 * methods talk to the cluster through a Store.Client and a Store.Recorder; each
 * of them is tied to a specification function of the cluster state it starts from
 * (Created, Updated, Reconciled), and the properties of those functions are
 * proved in module VerticalPodAutoscalerProperties.
 */
module VerticalPodAutoscaler {
  import opened Kube
  import opened Store

  const VpaRecommenderServiceAccount := "vpa-recommender"
  const VpaRecommenderPriorityClassName := "system-cluster-critical"
  const RecommenderNamePrefix := "vpa-recommender-"
  const RecommenderContainerName := "vertical-pod-autoscaler"

  // util.CriticalPodAnnotation and util.ReleaseVersionAnnotation. The model relies
  // only on the two keys being different.
  const CriticalPodAnnotation := "scheduler.alpha.kubernetes.io/critical-pod"
  const ReleaseVersionAnnotation := "release.openshift.io/version"

  // Event reasons.
  const FailedGetDeployment := "FailedGetDeployment"
  const FailedCreate := "FailedCreate"
  const SuccessfulCreate := "SuccessfulCreate"
  const FailedUpdate := "FailedUpdate"
  const SuccessfulUpdate := "SuccessfulUpdate"

  /** The configuration a reconciler is started with (or given by SetConfig). */
  datatype Config = Config(
    releaseVersion: string,
    name: string,
    namespace: string,
    image: string,
    verbosity: int,
    extraArgs: string)

  /**
   * The library calls whose code is not part of this model: RecommenderArgs,
   * util.ReleaseVersionMatches, reference.GetReference (None when it fails) and
   * the owner reference controllerutil.SetControllerReference builds (or its error).
   */
  datatype Foreign = Foreign(
    recommenderArgs: (VerticalPodAutoscalerController, Config) -> seq<string>,
    releaseVersionMatches: (VerticalPodAutoscalerController, string) -> bool,
    getReference: VerticalPodAutoscalerController -> Option<ObjectReference>,
    controllerReference: VerticalPodAutoscalerController -> Result<OwnerReference>)

  datatype ReconcileResult = ReconcileResult(requeue: bool, requeueAfter: int)

  const EmptyResult := ReconcileResult(false, 0)

  // ---------------------------------------------------------------------------
  // Watch filtering

  /** The four kinds of watch event the controller is subscribed to. */
  datatype WatchEvent =
    | CreateEvent(meta: ObjectMeta)
    | UpdateEvent(metaOld: ObjectMeta, metaNew: ObjectMeta)
    | DeleteEvent(meta: ObjectMeta)
    | GenericEvent(meta: ObjectMeta)

  /** Only objects named after the configured singleton are processed. */
  function NamePredicate(cfg: Config, meta: ObjectMeta): (admitted: bool)
    // the namespace, labels and annotations play no part
    ensures admitted <==> meta.name == cfg.name
  {
    meta.name == cfg.name
  }

  /**
   * The predicate.Funcs the controller watches with: each kind asks NamePredicate,
   * an update about the new version of the object.
   */
  function Admits(cfg: Config, e: WatchEvent): (admitted: bool)
    ensures e.UpdateEvent? ==> (admitted <==> e.metaNew.name == cfg.name)
    ensures !e.UpdateEvent? ==> (admitted <==> e.meta.name == cfg.name)
  {
    match e
    case CreateEvent(meta) => NamePredicate(cfg, meta)
    case UpdateEvent(_, metaNew) => NamePredicate(cfg, metaNew)
    case DeleteEvent(meta) => NamePredicate(cfg, meta)
    case GenericEvent(meta) => NamePredicate(cfg, meta)
  }

  // ---------------------------------------------------------------------------
  // The expected Deployment

  /** The name and namespace of the Deployment belonging to the resource. */
  function RecommenderName(cfg: Config, vpa: VerticalPodAutoscalerController): (nn: NamespacedName)
    // the configured namespace, not the resource's own
    ensures nn.namespace == cfg.namespace
    ensures nn.name == RecommenderNamePrefix + vpa.meta.name
  {
    NamespacedName(cfg.namespace, RecommenderNamePrefix + vpa.meta.name)
  }

  /**
   * The annotations UpdateAnnotations leaves on an object that had `ann` (None
   * standing for a nil map): the critical-pod marker, empty, and the release
   * version, every other key kept.
   */
  function ExpectedAnnotations(ann: Option<map<string, string>>, releaseVersion: string): (r: map<string, string>)
    ensures r.Keys == {CriticalPodAnnotation, ReleaseVersionAnnotation} + (if ann.Some? then ann.value.Keys else {})
    ensures r[CriticalPodAnnotation] == "" && r[ReleaseVersionAnnotation] == releaseVersion
    ensures ann.Some? ==> forall k :: k in ann.value && k != CriticalPodAnnotation && k != ReleaseVersionAnnotation ==> r[k] == ann.value[k]
  {
    var annotations := if ann.Some? then ann.value else map[];
    annotations[CriticalPodAnnotation := ""][ReleaseVersionAnnotation := releaseVersion]
  }

  /** The pod spec the recommender Deployment must run. */
  function RecommenderPodSpec(cfg: Config, foreign: Foreign, vpa: VerticalPodAutoscalerController): (spec: PodSpec)
    ensures spec.serviceAccountName == VpaRecommenderServiceAccount
    ensures spec.priorityClassName == VpaRecommenderPriorityClassName
    ensures spec.nodeSelector == map["node-role.kubernetes.io/master" := "", "beta.kubernetes.io/os" := "linux"]
    ensures |spec.containers| == 1
    ensures spec.containers[0].name == RecommenderContainerName
    ensures spec.containers[0].image == cfg.image
    ensures spec.containers[0].command == ["recommender"]
    // the arguments: RecommenderArgs, then ExtraArgs as one last argument when it is set
    ensures var base := foreign.recommenderArgs(vpa, cfg);
            var args := spec.containers[0].args;
            && base <= args
            && |args| == |base| + (if cfg.extraArgs == "" then 0 else 1)
            && (cfg.extraArgs != "" ==> args[|base|] == cfg.extraArgs)
    ensures |spec.tolerations| == 2
    ensures forall t :: t in spec.tolerations ==> t.operator == TolerationOpExists && t.value == ""
    ensures spec.tolerations[0].key == "CriticalAddonsOnly" && spec.tolerations[0].effect == ""
    ensures spec.tolerations[1].key == "node-role.kubernetes.io/master" && spec.tolerations[1].effect == TaintEffectNoSchedule
  {
    var args := foreign.recommenderArgs(vpa, cfg);
    var args := if cfg.extraArgs != "" then args + [cfg.extraArgs] else args;
    PodSpec(
      VpaRecommenderServiceAccount,
      VpaRecommenderPriorityClassName,
      map["node-role.kubernetes.io/master" := "", "beta.kubernetes.io/os" := "linux"],
      [Container(RecommenderContainerName, cfg.image, ["recommender"], args)],
      [ Toleration("CriticalAddonsOnly", TolerationOpExists, "", ""),
        Toleration("node-role.kubernetes.io/master", TolerationOpExists, "", TaintEffectNoSchedule)])
  }

  /** The Deployment the controller creates for the resource (before its owner is set). */
  function AutoscalerDeployment(cfg: Config, foreign: Foreign, vpa: VerticalPodAutoscalerController): (d: Deployment)
    ensures NameOf(d.meta) == RecommenderName(cfg, vpa)
    ensures d.meta.name == RecommenderNamePrefix + vpa.meta.name && d.meta.namespace == cfg.namespace
    ensures d.apiVersion == "apps/v1" && d.kind == "Deployment"
    ensures d.spec.replicas == Some(1)
    ensures d.spec.selector == Some(LabelSelector(d.spec.template.meta.labels))
    ensures d.spec.template.meta.labels == map["vertical-pod-autoscaler" := vpa.meta.name, "app" := "vertical-pod-autoscaler"]
    // both annotation sets are already what UpdateAnnotations would make of no annotations
    ensures d.meta.annotations == d.spec.template.meta.annotations == Some(ExpectedAnnotations(None, cfg.releaseVersion))
    ensures d.spec.template.spec == RecommenderPodSpec(cfg, foreign, vpa)
    ensures d.meta.ownerReferences == [] && d.meta.labels == map[]
    ensures d.spec.template.meta.name == "" && d.spec.template.meta.namespace == ""
    ensures d.spec.template.meta.ownerReferences == []
  {
    var namespacedName := RecommenderName(cfg, vpa);
    var labels := map["vertical-pod-autoscaler" := vpa.meta.name, "app" := "vertical-pod-autoscaler"];
    var annotations := map[CriticalPodAnnotation := "", ReleaseVersionAnnotation := cfg.releaseVersion];
    Deployment(
      "apps/v1", "Deployment",
      ObjectMeta(namespacedName.name, namespacedName.namespace, map[], Some(annotations), []),
      DeploymentSpec(
        Some(1),
        Some(LabelSelector(labels)),
        PodTemplateSpec(
          ObjectMeta("", "", labels, Some(annotations), []),
          RecommenderPodSpec(cfg, foreign, vpa))))
  }

  // ---------------------------------------------------------------------------
  // The pod-spec test of UpdateAutoscaler

  /**
   * A pod spec passed to equality.Semantic.DeepEqual, whose parameters are
   * interface{}: a PodSpec value and a *PodSpec are different dynamic types.
   */
  datatype Dynamic = PodSpecValue(spec: PodSpec) | PodSpecPointer(spec: PodSpec)

  /** Semantic.DeepEqual: equal only when the dynamic types agree and the contents are equal. */
  function SemanticDeepEqual(a: Dynamic, b: Dynamic): (eq: bool)
    ensures eq <==> (a.PodSpecValue? <==> b.PodSpecValue?) && a.spec == b.spec
  {
    a == b
  }

  /**
   * Which pod-spec test UpdateAutoscaler makes: the one in the code, which compares
   * the existing spec (a value) with the expected one (a pointer), or the intended
   * one, which compares two values.
   */
  datatype SpecComparison = AsWritten | Intended

  function SpecUnchanged(cmp: SpecComparison, existing: PodSpec, expected: PodSpec): (same: bool)
    ensures cmp == AsWritten ==> !same
    ensures cmp == Intended ==> (same <==> existing == expected)
  {
    var expectedArg := if cmp == AsWritten then PodSpecPointer(expected) else PodSpecValue(expected);
    SemanticDeepEqual(PodSpecValue(existing), expectedArg)
  }

  /** The Deployment with the resource set as its owner and controller. */
  function WithControllerReference(d: Deployment, owner: OwnerReference): (r: Deployment)
    ensures r.meta.ownerReferences == [owner]
    ensures NameOf(r.meta) == NameOf(d.meta)
    ensures r.meta.labels == d.meta.labels && r.meta.annotations == d.meta.annotations
    ensures r.spec == d.spec && r.apiVersion == d.apiVersion && r.kind == d.kind
  {
    d.(meta := d.meta.(ownerReferences := [owner]))
  }

  /**
   * The Deployment UpdateAutoscaler writes back: the expected pod spec, both
   * annotation sets refreshed, everything else as it was.
   */
  function Refreshed(cfg: Config, foreign: Foreign, vpa: VerticalPodAutoscalerController, d: Deployment): (r: Deployment)
    ensures r.spec.template.spec == RecommenderPodSpec(cfg, foreign, vpa)
    ensures r.meta.annotations == Some(ExpectedAnnotations(d.meta.annotations, cfg.releaseVersion))
    ensures r.spec.template.meta.annotations == Some(ExpectedAnnotations(d.spec.template.meta.annotations, cfg.releaseVersion))
    // labels, replicas, selector, name, owners: untouched
    ensures r.meta == d.meta.(annotations := r.meta.annotations)
    ensures r.spec.template.meta == d.spec.template.meta.(annotations := r.spec.template.meta.annotations)
    ensures r.spec.replicas == d.spec.replicas && r.spec.selector == d.spec.selector
    ensures r.apiVersion == d.apiVersion && r.kind == d.kind
  {
    var v := cfg.releaseVersion;
    d.(meta := d.meta.(annotations := Some(ExpectedAnnotations(d.meta.annotations, v))),
       spec := d.spec.(template := PodTemplateSpec(
         d.spec.template.meta.(annotations := Some(ExpectedAnnotations(d.spec.template.meta.annotations, v))),
         RecommenderPodSpec(cfg, foreign, vpa))))
  }

  /**
   * The reference events are attached to: the resource's own, with the configured
   * namespace filled in when it has none; None when no reference can be built.
   */
  function ObjectReferenceFor(cfg: Config, foreign: Foreign, vpa: VerticalPodAutoscalerController): (ref: Option<ObjectReference>)
    ensures ref.Some? <==> foreign.getReference(vpa).Some?
    ensures ref.Some? ==>
              var got := foreign.getReference(vpa).value;
              && ref.value.kind == got.kind && ref.value.apiVersion == got.apiVersion
              && ref.value.name == got.name && ref.value.uid == got.uid
              && (got.namespace == "" ==> ref.value.namespace == cfg.namespace)
              && (got.namespace != "" ==> ref.value.namespace == got.namespace)
  {
    match foreign.getReference(vpa)
    case None => None
    case Some(ref) =>
      if ref.namespace == "" then Some(ref.(namespace := cfg.namespace)) else Some(ref)
  }

  // ---------------------------------------------------------------------------
  // What one call does to the cluster

  /** The outcome of a reconcile: its error, the cluster after it, the events it recorded. */
  datatype Run = Run(err: Option<Error>, cluster: Cluster, events: seq<Event>)

  /** CreateAutoscaler, from cluster state c. */
  function Created(cfg: Config, foreign: Foreign, c: Cluster, vpa: VerticalPodAutoscalerController): (r: (Option<Error>, Cluster))
    ensures r.1.vpas == c.vpas
    ensures WellFormed(c) ==> WellFormed(r.1)
    ensures c.writes <= r.1.writes && |r.1.writes| <= |c.writes| + 1
  {
    match foreign.controllerReference(vpa)
    case Err(e) => (Some(e), c)
    case Ok(owner) => CreateDeployment(c, WithControllerReference(AutoscalerDeployment(cfg, foreign, vpa), owner))
  }

  /** UpdateAutoscaler, from cluster state c, making pod-spec test cmp. */
  function Updated(cfg: Config, foreign: Foreign, cmp: SpecComparison, c: Cluster, vpa: VerticalPodAutoscalerController): (r: (Option<Error>, Cluster))
    ensures r.1.vpas == c.vpas
    ensures WellFormed(c) ==> WellFormed(r.1)
    ensures c.writes <= r.1.writes && |r.1.writes| <= |c.writes| + 1
  {
    var (got, c1) := ReadDeployment(c, RecommenderName(cfg, vpa));
    if got.Err? then (Some(got.error), c1)
    else if SpecUnchanged(cmp, got.value.spec.template.spec, RecommenderPodSpec(cfg, foreign, vpa))
            && foreign.releaseVersionMatches(vpa, cfg.releaseVersion) then (None, c1)
    else UpdateDeployment(c1, Refreshed(cfg, foreign, vpa, got.value))
  }

  /** Reconcile of `request`, from cluster state c, making pod-spec test cmp. */
  function Reconciled(cfg: Config, foreign: Foreign, cmp: SpecComparison, c: Cluster, request: NamespacedName): (r: Run)
    // one event once the resource has been read, none before
    ensures |r.events| == (if ReadVpa(c, request).0.Ok? then 1 else 0)
    // the event is a Warning exactly when an error is returned
    ensures forall e :: e in r.events ==> (e.eventType == Warning <==> r.err.Some?)
    // a resource that is not found is no error
    ensures ReadVpa(c, request).0 == Err(NotFound) ==> r.err == None
  {
    var (got, c1) := ReadVpa(c, request);
    if got.Err? then
      Run(if got.error == NotFound then None else Some(got.error), c1, [])
    else
      var vpa := got.value;
      var vpaRef := ObjectReferenceFor(cfg, foreign, vpa);
      var (existing, c2) := ReadDeployment(c1, RecommenderName(cfg, vpa));
      if existing.Err? && existing.error != NotFound then
        Run(Some(existing.error), c2, [Event(Warning, FailedGetDeployment, vpaRef)])
      else if existing.Err? then
        var (err, c3) := Created(cfg, foreign, c2, vpa);
        if err.Some? then Run(err, c3, [Event(Warning, FailedCreate, vpaRef)])
        else Run(None, c3, [Event(Normal, SuccessfulCreate, vpaRef)])
      else
        var (err, c3) := Updated(cfg, foreign, cmp, c2, vpa);
        if err.Some? then Run(err, c3, [Event(Warning, FailedUpdate, vpaRef)])
        else Run(None, c3, [Event(Normal, SuccessfulUpdate, vpaRef)])
  }

  // ---------------------------------------------------------------------------
  // The reconciler

  class Reconciler {
    const client: Client
    const recorder: Recorder
    const foreign: Foreign
    const comparison: SpecComparison
    var config: Config

    constructor (client: Client, recorder: Recorder, foreign: Foreign, comparison: SpecComparison, config: Config)
      ensures this.client == client && this.recorder == recorder && this.config == config
      ensures this.foreign == foreign && this.comparison == comparison
    {
      this.client := client;
      this.recorder := recorder;
      this.foreign := foreign;
      this.comparison := comparison;
      this.config := config;
    }

    method SetConfig(cfg: Config)
      modifies this`config
      ensures config == cfg
    {
      config := cfg;
    }

    method GetAutoscaler(vpa: VerticalPodAutoscalerController) returns (r: Result<Deployment>)
      modifies client
      ensures (r, client.State()) == ReadDeployment(old(client.State()), RecommenderName(config, vpa))
    {
      r := client.GetDeployment(RecommenderName(config, vpa));
    }

    /** Sets the two annotations the controller owns; `updated` is `obj` after the change. */
    method UpdateAnnotations(obj: ObjectMeta) returns (updated: ObjectMeta)
      ensures updated == obj.(annotations := Some(ExpectedAnnotations(obj.annotations, config.releaseVersion)))
    {
      var annotations := if obj.annotations.Some? then obj.annotations.value else map[];
      annotations := annotations[CriticalPodAnnotation := ""];
      annotations := annotations[ReleaseVersionAnnotation := config.releaseVersion];
      updated := obj.(annotations := Some(annotations));
    }

    method CreateAutoscaler(vpa: VerticalPodAutoscalerController) returns (err: Option<Error>)
      modifies client
      ensures (err, client.State()) == Created(config, foreign, old(client.State()), vpa)
    {
      var deployment := AutoscalerDeployment(config, foreign, vpa);
      var owner := foreign.controllerReference(vpa);
      if owner.Err? {
        return Some(owner.error);
      }
      deployment := WithControllerReference(deployment, owner.value);
      err := client.Create(deployment);
    }

    method UpdateAutoscaler(vpa: VerticalPodAutoscalerController) returns (err: Option<Error>)
      modifies client
      ensures (err, client.State()) == Updated(config, foreign, comparison, old(client.State()), vpa)
    {
      var got := GetAutoscaler(vpa);
      if got.Err? {
        return Some(got.error);
      }
      var existing := got.value;
      var expectedSpec := RecommenderPodSpec(config, foreign, vpa);
      if SpecUnchanged(comparison, existing.spec.template.spec, expectedSpec) && foreign.releaseVersionMatches(vpa, config.releaseVersion) {
        return None;
      }
      existing := existing.(spec := existing.spec.(template := existing.spec.template.(spec := expectedSpec)));
      var meta := UpdateAnnotations(existing.meta);
      existing := existing.(meta := meta);
      var templateMeta := UpdateAnnotations(existing.spec.template.meta);
      existing := existing.(spec := existing.spec.(template := existing.spec.template.(meta := templateMeta)));
      err := client.Update(existing);
    }

    method Reconcile(request: NamespacedName) returns (res: ReconcileResult, err: Option<Error>)
      modifies client, recorder
      ensures res == EmptyResult
      ensures var run := Reconciled(config, foreign, comparison, old(client.State()), request);
              && err == run.err
              && client.State() == run.cluster
              && recorder.events == old(recorder.events) + run.events
    {
      res := EmptyResult;
      var got := client.GetVpa(request);
      if got.Err? {
        if got.error == NotFound {
          return res, None;
        }
        return res, Some(got.error);
      }
      var vpa := got.value;
      var vpaRef := ObjectReferenceFor(config, foreign, vpa);

      var existing := GetAutoscaler(vpa);
      if existing.Err? && existing.error != NotFound {
        recorder.Record(vpaRef, Warning, FailedGetDeployment);
        return res, Some(existing.error);
      }

      if existing.Err? {
        err := CreateAutoscaler(vpa);
        if err.Some? {
          recorder.Record(vpaRef, Warning, FailedCreate);
          return res, err;
        }
        recorder.Record(vpaRef, Normal, SuccessfulCreate);
        return res, None;
      }

      err := UpdateAutoscaler(vpa);
      if err.Some? {
        recorder.Record(vpaRef, Warning, FailedUpdate);
        return res, err;
      }
      recorder.Record(vpaRef, Normal, SuccessfulUpdate);
      return res, None;
    }
  }
}
