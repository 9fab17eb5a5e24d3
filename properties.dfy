/**
 * What the Reconciler promises, proved about the specification functions its
 * methods are tied to: the outcome of each branch of Reconcile, the shape of the
 * Deployment it writes, and what repeated reconciles (the
 * framework's resyncs) converge to.
 */
module VerticalPodAutoscalerProperties {
  import opened Kube
  import opened Store
  import opened VerticalPodAutoscaler

  // ---------------------------------------------------------------------------
  // Names and annotations

  /** Different resources get different Deployments: the derived name determines the resource name. */
  lemma {:induction false} RecommenderNameInjective(cfg: Config, a: VerticalPodAutoscalerController, b: VerticalPodAutoscalerController)
    requires RecommenderName(cfg, a) == RecommenderName(cfg, b)
    ensures a.meta.name == b.meta.name
  {
    var n := |RecommenderNamePrefix|;
    assert a.meta.name == (RecommenderNamePrefix + a.meta.name)[n..];
    assert b.meta.name == (RecommenderNamePrefix + b.meta.name)[n..];
  }

  /** Applying UpdateAnnotations twice gives what applying it once gives. */
  lemma ExpectedAnnotationsIdempotent(ann: Option<map<string, string>>, releaseVersion: string)
    ensures ExpectedAnnotations(Some(ExpectedAnnotations(ann, releaseVersion)), releaseVersion)
            == ExpectedAnnotations(ann, releaseVersion)
  {
  }

  /** A nil annotations map is treated as an empty one. */
  lemma NilAnnotationsAreEmpty(releaseVersion: string)
    ensures ExpectedAnnotations(None, releaseVersion) == ExpectedAnnotations(Some(map[]), releaseVersion)
  {
  }

  /**
   * An object carrying none, one or both of the controller's keys (with any
   * values) ends with exactly the two expected entries.
   */
  lemma ExpectedAnnotationsOfOwnedKeys(ann: Option<map<string, string>>, releaseVersion: string)
    requires ann.Some? ==> ann.value.Keys <= {CriticalPodAnnotation, ReleaseVersionAnnotation}
    ensures ExpectedAnnotations(ann, releaseVersion)
            == map[CriticalPodAnnotation := "", ReleaseVersionAnnotation := releaseVersion]
  {
  }

  /** Refreshing a refreshed Deployment changes nothing. */
  lemma RefreshedIdempotent(cfg: Config, foreign: Foreign, vpa: VerticalPodAutoscalerController, d: Deployment)
    ensures Refreshed(cfg, foreign, vpa, Refreshed(cfg, foreign, vpa, d)) == Refreshed(cfg, foreign, vpa, d)
  {
    ExpectedAnnotationsIdempotent(d.meta.annotations, cfg.releaseVersion);
    ExpectedAnnotationsIdempotent(d.spec.template.meta.annotations, cfg.releaseVersion);
  }

  // ---------------------------------------------------------------------------
  // The branches of Reconcile

  /**
   * Reading the resource fails: a NotFound is success with nothing done; any
   * other error is returned as it is. Either way nothing is written and no
   * event is recorded.
   */
  lemma VpaReadFailure(cfg: Config, foreign: Foreign, cmp: SpecComparison, c: Cluster, request: NamespacedName, e: Error)
    requires ReadVpa(c, request).0 == Err(e)
    ensures var r := Reconciled(cfg, foreign, cmp, c, request);
            && r.err == (if e == NotFound then None else Some(e))
            && r.events == []
            && r.cluster.deployments == c.deployments
            && r.cluster.writes == c.writes
  {
  }

  /** Reading the Deployment fails other than NotFound: one FailedGetDeployment warning, the error, nothing written. */
  lemma DeploymentReadFailure(cfg: Config, foreign: Foreign, cmp: SpecComparison, c: Cluster, request: NamespacedName,
                              vpa: VerticalPodAutoscalerController, e: Error)
    requires ReadVpa(c, request).0 == Ok(vpa)
    requires ReadDeployment(ReadVpa(c, request).1, RecommenderName(cfg, vpa)).0 == Err(e)
    requires e != NotFound
    ensures var r := Reconciled(cfg, foreign, cmp, c, request);
            && r.err == Some(e)
            && r.events == [Event(Warning, FailedGetDeployment, ObjectReferenceFor(cfg, foreign, vpa))]
            && r.cluster.deployments == c.deployments
            && r.cluster.writes == c.writes
  {
  }

  /**
   * No Deployment yet: exactly one create request, for the expected Deployment
   * owned by the resource; SuccessfulCreate when it is stored, FailedCreate and
   * the error otherwise (also when the owner reference cannot be set, in which
   * case nothing is sent).
   */
  lemma AbsentDeploymentCreated(cfg: Config, foreign: Foreign, cmp: SpecComparison, c: Cluster, request: NamespacedName,
                                vpa: VerticalPodAutoscalerController)
    requires ReadVpa(c, request).0 == Ok(vpa)
    requires ReadDeployment(ReadVpa(c, request).1, RecommenderName(cfg, vpa)).0 == Err(NotFound)
    ensures var r := Reconciled(cfg, foreign, cmp, c, request);
            var vpaRef := ObjectReferenceFor(cfg, foreign, vpa);
            match foreign.controllerReference(vpa)
            case Err(e) =>
              && r.err == Some(e)
              && r.events == [Event(Warning, FailedCreate, vpaRef)]
              && r.cluster.deployments == c.deployments
              && r.cluster.writes == c.writes
            case Ok(owner) =>
              var d := WithControllerReference(AutoscalerDeployment(cfg, foreign, vpa), owner);
              var c2 := ReadDeployment(ReadVpa(c, request).1, RecommenderName(cfg, vpa)).1;
              && r.cluster.writes == c.writes + [CreateRequest(d)]
              && r.err == CreateDeployment(c2, d).0
              && (r.err.None? ==>
                    r.events == [Event(Normal, SuccessfulCreate, vpaRef)]
                    && r.cluster.deployments == c.deployments[RecommenderName(cfg, vpa) := d])
              && (r.err.Some? ==>
                    r.events == [Event(Warning, FailedCreate, vpaRef)]
                    && r.cluster.deployments == c.deployments)
  {
  }

  /** With no store failures, a missing Deployment is created and stored. */
  lemma CreateSucceedsWithoutFaults(cfg: Config, foreign: Foreign, cmp: SpecComparison, c: Cluster, request: NamespacedName)
    requires c.faults == [] && request in c.vpas
    requires RecommenderName(cfg, c.vpas[request]) !in c.deployments
    requires foreign.controllerReference(c.vpas[request]).Ok?
    ensures var vpa := c.vpas[request];
            var d := WithControllerReference(AutoscalerDeployment(cfg, foreign, vpa), foreign.controllerReference(vpa).value);
            var r := Reconciled(cfg, foreign, cmp, c, request);
            && r.err == None
            && r.cluster.deployments == c.deployments[RecommenderName(cfg, vpa) := d]
            && r.cluster.writes == c.writes + [CreateRequest(d)]
            && r.events == [Event(Normal, SuccessfulCreate, ObjectReferenceFor(cfg, foreign, vpa))]
  {
  }

  /**
   * A Deployment exists. UpdateAutoscaler reads it a second time; when that read
   * fails, FailedUpdate and the error, nothing written.
   */
  lemma UpdateReadFailure(cfg: Config, foreign: Foreign, cmp: SpecComparison, c: Cluster, request: NamespacedName,
                          vpa: VerticalPodAutoscalerController, e: Error)
    requires ReadVpa(c, request).0 == Ok(vpa)
    requires var key := RecommenderName(cfg, vpa);
             var first := ReadDeployment(ReadVpa(c, request).1, key);
             first.0.Ok? && ReadDeployment(first.1, key).0 == Err(e)
    ensures var r := Reconciled(cfg, foreign, cmp, c, request);
            && r.err == Some(e)
            && r.events == [Event(Warning, FailedUpdate, ObjectReferenceFor(cfg, foreign, vpa))]
            && r.cluster.deployments == c.deployments
            && r.cluster.writes == c.writes
  {
  }

  /**
   * A Deployment exists and is read. When the pod-spec test holds and the
   * resource's release version matches, no update is sent, yet SuccessfulUpdate
   * is recorded. Otherwise exactly one update is sent, carrying the refreshed
   * Deployment, and its outcome decides between SuccessfulUpdate and FailedUpdate.
   * As written, the pod-spec test never holds, so the update is always sent.
   */
  lemma PresentDeploymentUpdated(cfg: Config, foreign: Foreign, cmp: SpecComparison, c: Cluster, request: NamespacedName,
                                 vpa: VerticalPodAutoscalerController, existing: Deployment)
    requires WellFormed(c)
    requires ReadVpa(c, request).0 == Ok(vpa)
    requires var key := RecommenderName(cfg, vpa);
             var first := ReadDeployment(ReadVpa(c, request).1, key);
             first.0.Ok? && ReadDeployment(first.1, key).0 == Ok(existing)
    ensures var r := Reconciled(cfg, foreign, cmp, c, request);
            var vpaRef := ObjectReferenceFor(cfg, foreign, vpa);
            if SpecUnchanged(cmp, existing.spec.template.spec, RecommenderPodSpec(cfg, foreign, vpa))
               && foreign.releaseVersionMatches(vpa, cfg.releaseVersion) then
              && r.err == None
              && r.events == [Event(Normal, SuccessfulUpdate, vpaRef)]
              && r.cluster.deployments == c.deployments
              && r.cluster.writes == c.writes
            else
              var d := Refreshed(cfg, foreign, vpa, existing);
              var key := RecommenderName(cfg, vpa);
              var c3 := ReadDeployment(ReadDeployment(ReadVpa(c, request).1, key).1, key).1;
              && r.cluster.writes == c.writes + [UpdateRequest(d)]
              && r.err == UpdateDeployment(c3, d).0
              && (r.err.None? ==>
                    r.events == [Event(Normal, SuccessfulUpdate, vpaRef)]
                    && r.cluster.deployments == c.deployments[RecommenderName(cfg, vpa) := d])
              && (r.err.Some? ==>
                    r.events == [Event(Warning, FailedUpdate, vpaRef)]
                    && r.cluster.deployments == c.deployments)
    ensures cmp == AsWritten ==>
              Reconciled(cfg, foreign, cmp, c, request).cluster.writes
              == c.writes + [UpdateRequest(Refreshed(cfg, foreign, vpa, existing))]
  {
  }

  /**
   * What every reconcile keeps: the resources are never written, the store stays
   * well formed, at most one write request is sent, and exactly one event is
   * recorded once the resource has been read (none before).
   */
  lemma ReconcileFrame(cfg: Config, foreign: Foreign, cmp: SpecComparison, c: Cluster, request: NamespacedName)
    ensures var r := Reconciled(cfg, foreign, cmp, c, request);
            && r.cluster.vpas == c.vpas
            && (WellFormed(c) ==> WellFormed(r.cluster))
            && c.writes <= r.cluster.writes && |r.cluster.writes| <= |c.writes| + 1
            && |r.events| == (if ReadVpa(c, request).0.Ok? then 1 else 0)
  {
    var (got, c1) := ReadVpa(c, request);
    if got.Ok? {
      var (existing, c2) := ReadDeployment(c1, RecommenderName(cfg, got.value));
      assert c2.vpas == c.vpas && c2.writes == c.writes && c2.deployments == c.deployments;
    }
  }

  /**
   * Reconcile itself does not look at the configured singleton name: the name
   * filter acts only on watch events (provided RecommenderArgs does not read it).
   */
  lemma ReconcileIgnoresConfiguredName(cfg: Config, foreign: Foreign, cmp: SpecComparison, c: Cluster, request: NamespacedName, name: string)
    requires forall vpa :: foreign.recommenderArgs(vpa, cfg) == foreign.recommenderArgs(vpa, cfg.(name := name))
    ensures Reconciled(cfg, foreign, cmp, c, request) == Reconciled(cfg.(name := name), foreign, cmp, c, request)
  {
    var renamed := cfg.(name := name);
    var (got, c1) := ReadVpa(c, request);
    if got.Ok? {
      var vpa := got.value;
      assert foreign.recommenderArgs(vpa, cfg) == foreign.recommenderArgs(vpa, renamed);
      assert ObjectReferenceFor(cfg, foreign, vpa) == ObjectReferenceFor(renamed, foreign, vpa);
      assert RecommenderName(cfg, vpa) == RecommenderName(renamed, vpa);
      var (existing, c2) := ReadDeployment(c1, RecommenderName(cfg, vpa));
      if existing.Err? && existing.error == NotFound {
        CreatedIgnoresConfiguredName(cfg, foreign, c2, vpa, name);
      } else if existing.Ok? {
        UpdatedIgnoresConfiguredName(cfg, foreign, cmp, c2, vpa, name);
      }
    }
  }

  lemma CreatedIgnoresConfiguredName(cfg: Config, foreign: Foreign, c: Cluster, vpa: VerticalPodAutoscalerController, name: string)
    requires foreign.recommenderArgs(vpa, cfg) == foreign.recommenderArgs(vpa, cfg.(name := name))
    ensures Created(cfg, foreign, c, vpa) == Created(cfg.(name := name), foreign, c, vpa)
  {
    var renamed := cfg.(name := name);
    assert RecommenderPodSpec(cfg, foreign, vpa) == RecommenderPodSpec(renamed, foreign, vpa);
    assert AutoscalerDeployment(cfg, foreign, vpa) == AutoscalerDeployment(renamed, foreign, vpa);
  }

  lemma UpdatedIgnoresConfiguredName(cfg: Config, foreign: Foreign, cmp: SpecComparison, c: Cluster,
                                     vpa: VerticalPodAutoscalerController, name: string)
    requires foreign.recommenderArgs(vpa, cfg) == foreign.recommenderArgs(vpa, cfg.(name := name))
    ensures Updated(cfg, foreign, cmp, c, vpa) == Updated(cfg.(name := name), foreign, cmp, c, vpa)
  {
    var renamed := cfg.(name := name);
    assert RecommenderName(cfg, vpa) == RecommenderName(renamed, vpa);
    assert RecommenderPodSpec(cfg, foreign, vpa) == RecommenderPodSpec(renamed, foreign, vpa);
  }

  // ---------------------------------------------------------------------------
  // Repeated reconciles

  function Repeat<T>(x: T, n: nat): (s: seq<T>)
    ensures |s| == n && forall i :: 0 <= i < n ==> s[i] == x
  {
    if n == 0 then [] else [x] + Repeat(x, n - 1)
  }

  /**
   * n reconciles of the same request in a row: the cluster after the last, all
   * the events, and the first error any of them returned.
   */
  function Resync(cfg: Config, foreign: Foreign, cmp: SpecComparison, c: Cluster, request: NamespacedName, n: nat): Run
    decreases n
  {
    if n == 0 then Run(None, c, [])
    else
      var first := Reconciled(cfg, foreign, cmp, c, request);
      var rest := Resync(cfg, foreign, cmp, first.cluster, request, n - 1);
      Run(if first.err.Some? then first.err else rest.err, rest.cluster, first.events + rest.events)
  }

  /**
   * The resource exists, its Deployment runs the expected pod spec, its release
   * version matches, and the store does not fail.
   */
  ghost predicate Converged(cfg: Config, foreign: Foreign, c: Cluster, request: NamespacedName) {
    && c.faults == []
    && request in c.vpas
    && var vpa := c.vpas[request];
       && RecommenderName(cfg, vpa) in c.deployments
       && c.deployments[RecommenderName(cfg, vpa)].spec.template.spec == RecommenderPodSpec(cfg, foreign, vpa)
       && foreign.releaseVersionMatches(vpa, cfg.releaseVersion)
  }

  /**
   * With a store that does not fail, one reconcile succeeds and converges, from a
   * missing Deployment (created) as from a drifted one (updated), provided the
   * owner reference can be set and the resource's release version matches.
   */
  lemma ReconcileConverges(cfg: Config, foreign: Foreign, cmp: SpecComparison, c: Cluster, request: NamespacedName)
    requires c.faults == [] && WellFormed(c) && request in c.vpas
    requires foreign.controllerReference(c.vpas[request]).Ok?
    requires foreign.releaseVersionMatches(c.vpas[request], cfg.releaseVersion)
    ensures Reconciled(cfg, foreign, cmp, c, request).err == None
    ensures Converged(cfg, foreign, Reconciled(cfg, foreign, cmp, c, request).cluster, request)
  {
  }

  /**
   * With the intended pod-spec test, once converged, every further reconcile is a
   * no-op on the store (no write is sent) that records SuccessfulUpdate.
   */
  lemma {:induction false} ConvergedIsFixedPoint(cfg: Config, foreign: Foreign, c: Cluster, request: NamespacedName, n: nat)
    requires Converged(cfg, foreign, c, request)
    ensures var r := Resync(cfg, foreign, Intended, c, request, n);
            && r.err == None
            && r.cluster == c
            && r.events == Repeat(Event(Normal, SuccessfulUpdate, ObjectReferenceFor(cfg, foreign, c.vpas[request])), n)
  {
    if n > 0 {
      var ev := Event(Normal, SuccessfulUpdate, ObjectReferenceFor(cfg, foreign, c.vpas[request]));
      assert Reconciled(cfg, foreign, Intended, c, request) == Run(None, c, [ev]);
      ConvergedIsFixedPoint(cfg, foreign, c, request, n - 1);
    }
  }

  /** One step of FoundDeploymentRewrittenEveryResync. */
  lemma FoundDeploymentRewritten(cfg: Config, foreign: Foreign, cmp: SpecComparison, c: Cluster, request: NamespacedName)
    requires c.faults == [] && WellFormed(c) && request in c.vpas
    requires RecommenderName(cfg, c.vpas[request]) in c.deployments
    requires cmp == AsWritten || !foreign.releaseVersionMatches(c.vpas[request], cfg.releaseVersion)
    ensures var vpa := c.vpas[request];
            var key := RecommenderName(cfg, vpa);
            var d := Refreshed(cfg, foreign, vpa, c.deployments[key]);
            var r := Reconciled(cfg, foreign, cmp, c, request);
            && r.err == None
            && r.cluster == c.(deployments := c.deployments[key := d], writes := c.writes + [UpdateRequest(d)])
  {
    var vpa := c.vpas[request];
    var key := RecommenderName(cfg, vpa);
    assert ReadVpa(c, request) == (Ok(vpa), c);
    assert ReadDeployment(c, key) == (Ok(c.deployments[key]), c);
    assert Updated(cfg, foreign, cmp, c, vpa) == UpdateDeployment(c, Refreshed(cfg, foreign, vpa, c.deployments[key]));
  }

  /**
   * Every reconcile that finds the Deployment sends an update, even though the
   * Deployment it writes is the same each time, when the pod-spec test is the one
   * in the code (it never holds), and, whatever the test, while the resource's
   * release version does not match (the controller never changes the resource).
   */
  lemma {:induction false} FoundDeploymentRewrittenEveryResync(cfg: Config, foreign: Foreign, cmp: SpecComparison, c: Cluster, request: NamespacedName, n: nat)
    requires c.faults == [] && WellFormed(c) && request in c.vpas
    requires RecommenderName(cfg, c.vpas[request]) in c.deployments
    requires cmp == AsWritten || !foreign.releaseVersionMatches(c.vpas[request], cfg.releaseVersion)
    decreases n
    ensures var vpa := c.vpas[request];
            var key := RecommenderName(cfg, vpa);
            var d := Refreshed(cfg, foreign, vpa, c.deployments[key]);
            var r := Resync(cfg, foreign, cmp, c, request, n);
            && r.err == None
            && r.cluster.writes == c.writes + Repeat(UpdateRequest(d), n)
            && r.cluster.deployments == (if n == 0 then c.deployments else c.deployments[key := d])
  {
    if n > 0 {
      var vpa := c.vpas[request];
      var key := RecommenderName(cfg, vpa);
      var d := Refreshed(cfg, foreign, vpa, c.deployments[key]);
      var next := c.(deployments := c.deployments[key := d], writes := c.writes + [UpdateRequest(d)]);
      FoundDeploymentRewritten(cfg, foreign, cmp, c, request);
      RefreshedIdempotent(cfg, foreign, vpa, c.deployments[key]);
      FoundDeploymentRewrittenEveryResync(cfg, foreign, cmp, next, request, n - 1);
      assert c.writes + [UpdateRequest(d)] + Repeat(UpdateRequest(d), n - 1) == c.writes + Repeat(UpdateRequest(d), n);
    }
  }

  /**
   * As written, a converged store is not a fixed point: the next reconcile sends an
   * update of a Deployment that already runs the expected pod spec.
   */
  lemma ConvergedStillUpdatedAsWritten(cfg: Config, foreign: Foreign, c: Cluster, request: NamespacedName)
    requires Converged(cfg, foreign, c, request) && WellFormed(c)
    ensures var vpa := c.vpas[request];
            var d := Refreshed(cfg, foreign, vpa, c.deployments[RecommenderName(cfg, vpa)]);
            && d.spec.template.spec == c.deployments[RecommenderName(cfg, vpa)].spec.template.spec
            && Reconciled(cfg, foreign, AsWritten, c, request).cluster.writes == c.writes + [UpdateRequest(d)]
  {
  }
}
