/** The admission webhook (`internal/api/kubernetes/admission/workloadMutationHandler.go`): scales a copy of
    an incoming object down and answers with the difference. */
module Webhook {
  import opened Wrappers
  import opened Replicas
  import opened Annotations
  import opened TimeSpans
  import opened Schedule
  import opened ScopeParser
  import opened Scaling
  import opened Laws
  import opened Cluster
  import opened Workloads
  import opened Metadata
  import opened Metrics
  import opened Filter
  import opened Controller
  import opened Scan

  /** Every answer allows the object. `patch` is the object the patch turns the incoming one into; a failed
      answer has none. */
  datatype Review = Review(patch: Option<Object>, failed: bool)

  const NO_PATCH := Review(None, false)
  const FAILED := Review(None, true)

  /** What the webhook is configured with. `scaledObjects` lists the ScaledObjects of the workload's namespace;
      it is None when ScaledObjects are not among the included resources, and Some(None) when listing them
      failed. */
  datatype Settings = Settings(
    includeNamespaces: Option<set<string>>,
    scaledObjects: Option<Option<seq<Metadata>>>,
    filters: Filters,
    formats: Formats,
    lowerScopes: Scopes,
    dryRun: bool)

  method MutateWorkload(workload: Workload, target: Replicas, dryRun: bool) returns (review: Review)
    ensures unchanged(workload)
    ensures review ==
            (var down := Down(workload.Contents(), target);
             if down.report.Failure? then FAILED
             else if dryRun then NO_PATCH
             else Review(Some(down.after), false))
  {
    hide Down;
    var workloadCopy := workload.Copy();
    var report := workloadCopy.ScaleDown(target);
    assert Outcome(workloadCopy.Contents(), report) == Down(workload.Contents(), target);
    if report.Failure? {
      return FAILED;
    }
    if dryRun {
      return NO_PATCH;
    }
    return Review(Some(workloadCopy.Contents()), false);
  }

  method EvaluateScalingConditions(scaling: ScalingKind, target: Option<Replicas>, workload: Workload, dryRun: bool)
    returns (review: Review)
    ensures unchanged(workload)
    ensures review.patch.Some? <==>
            scaling == ScalingDown && target.Some? && !dryRun && Down(workload.Contents(), target.value).report.Success?
    ensures review.patch.Some? ==> review.patch.value == Down(workload.Contents(), target.value).after
    ensures review.failed <==>
            || scaling == ScalingMultiple
            || (scaling == ScalingDown && (target.None? || Down(workload.Contents(), target.value).report.Failure?))
  {
    hide Down;
    match scaling
    case ScalingDown =>
      if target.None? {
        return FAILED;
      }
      review := MutateWorkload(workload, target.value, dryRun);
    case ScalingMultiple => review := FAILED;
    case _ => review := NO_PATCH;
  }

  predicate NamespaceIncluded(w: Metadata, settings: Settings) {
    settings.includeNamespaces.Some? && settings.includeNamespaces.value != {} ==>
      w.namespace in settings.includeNamespaces.value
  }

  /** Passes the namespace, ScaledObject and filter tests. */
  ghost predicate Admitted(w: Metadata, settings: Settings) {
    && NamespaceIncluded(w, settings)
    && (settings.scaledObjects.Some? ==>
          settings.scaledObjects.value.Some? && !ScaledByAny(w, settings.scaledObjects.value.value))
    && KeptIndices([w], settings.filters, 1) != []
  }

  /** The scopes the webhook decides by, if the two from annotations can be read. */
  ghost function ScopesOf(annotations: Annotations, settings: Settings, namespaceScope: Option<Scope>): Option<Scopes> {
    match (ParsedScope(annotations, settings.formats), namespaceScope)
    case (Some(own), Some(namespace)) => Some([own, namespace] + settings.lowerScopes)
    case _ => None
  }

  /** The scopes want the object down and scaling it down works. */
  ghost predicate Patches(o: Object, settings: Settings, namespaceScope: Option<Scope>, now: Instant) {
    var scopes := ScopesOf(o.annotations, settings, namespaceScope);
    && !settings.dryRun
    && scopes.Some?
    && !IsExcluded(scopes.value, now)
    && CurrentScaling(scopes.value, now).scaling == ScalingDown
    && GetDownscaleReplicas(scopes.value).Some?
    && Down(o, GetDownscaleReplicas(scopes.value).value).report.Success?
  }

  ghost function Target(o: Object, settings: Settings, namespaceScope: Option<Scope>): Replicas {
    var scopes := ScopesOf(o.annotations, settings, namespaceScope);
    if scopes.Some? && GetDownscaleReplicas(scopes.value).Some? then GetDownscaleReplicas(scopes.value).value
    else Absolute(0)
  }

  /** The answers that are errors: the ScaledObjects cannot be listed, a scope of an admitted workload cannot be
      read, its scopes conflict, or it is wanted down without a target or cannot be scaled down. */
  ghost predicate Fails(w: Metadata, o: Object, settings: Settings, namespaceScope: Option<Scope>, now: Instant) {
    var scopes := ScopesOf(o.annotations, settings, namespaceScope);
    || (NamespaceIncluded(w, settings) && settings.scaledObjects == Some(None))
    || (Admitted(w, settings) &&
        (scopes.None? || (!IsExcluded(scopes.value, now) && CannotScale(o, scopes.value, now))))
  }

  ghost predicate CannotScale(o: Object, scopes: Scopes, now: Instant) {
    var scaling, target := CurrentScaling(scopes, now).scaling, GetDownscaleReplicas(scopes);
    || scaling == ScalingMultiple
    || (scaling == ScalingDown && (target.None? || Down(o, target.value).report.Failure?))
  }

  /** `namespaceScope` is None when reading the namespace or its annotations failed. */
  method EvaluateMutation(workload: Workload, settings: Settings, namespaceScope: Option<Scope>, now: Instant)
    returns (review: Review)
    ensures unchanged(workload)
    ensures review.patch.Some? <==>
            && Admitted(workload.metadata, settings)
            && Patches(workload.Contents(), settings, namespaceScope, now)
    ensures review.patch.Some? ==>
              var o := workload.Contents();
              review.patch.value == Down(o, Target(o, settings, namespaceScope)).after
    ensures review.failed <==> Fails(workload.metadata, workload.Contents(), settings, namespaceScope, now)
    ensures review.failed ==> review.patch.None?
    // a dry run changes nothing, and neither does a namespace that is not included or a managed workload
    ensures settings.dryRun ==> review.patch.None?
    ensures settings.includeNamespaces.Some? && settings.includeNamespaces.value != {} &&
            workload.metadata.namespace !in settings.includeNamespaces.value ==>
              review == NO_PATCH
    ensures settings.scaledObjects.Some? && settings.scaledObjects.value.Some? &&
            ScaledByAny(workload.metadata, settings.scaledObjects.value.value) ==>
              review == NO_PATCH
  {
    hide ParsedScope, IsExcluded, CurrentScaling, Down, GetDownscaleReplicas, ScaledByAny;
    var w := workload.metadata;
    if !NamespaceIncluded(w, settings) {
      return NO_PATCH;
    }
    if settings.scaledObjects.Some? {
      if settings.scaledObjects.value.None? {
        return FAILED;
      }
      var managed := IsWorkloadExternallyManaged(w, settings.scaledObjects.value.value);
      if managed {
        return NO_PATCH;
      }
    }
    var workloads := FilterExcluded([w], settings.filters, null);
    if workloads == [] {
      return NO_PATCH;
    }
    var scopeWorkload := GetScopeFromAnnotations(workload.annotations, settings.formats);
    if scopeWorkload.None? || namespaceScope.None? {
      return FAILED;
    }
    var scopes := [scopeWorkload.value, namespaceScope.value] + settings.lowerScopes;
    var exclusion := GetExcludedWithScope(scopes, now);
    if exclusion.matched {
      return NO_PATCH;
    }
    var decision := GetCurrentScaling(scopes, now);
    review := EvaluateScalingConditions(decision.scaling, GetDownscaleReplicas(scopes), workload, settings.dryRun);
  }

  // ----- webhook and controller agree -----

  /** Scaling leaves every annotation that a scope is read from as it is. */
  lemma ScalingKeepsTheScope(d: Decision, o: Object, formats: Formats)
    ensures ParsedScope(Apply(d, o).after.annotations, formats) == ParsedScope(o.annotations, formats)
  {
    hide Apply, ParsedScope;
    var after := Apply(d, o).after.annotations;
    forall key: Key | key.IsScopeKey() ensures SameAt(after, o.annotations, key) {
      ForeignAnnotationsStay(d, o, key);
    }
    OnlyScopeKeysMatter(after, o.annotations, formats);
  }

  /** A controller with the same scopes, at the same instant, wants of the patched object what the webhook wanted of
      the incoming one, unless it skips it for its grace period. It sends an update exactly when it does not skip
      and the target does not settle. */
  lemma ControllerAgrees(o: Object, settings: Settings, namespaceScope: Option<Scope>, now: Instant,
                         namespace: string, config: Config, created: Instant)
    requires Patches(o, settings, namespaceScope, now)
    requires SameScopes(settings, namespaceScope, namespace, config)
    ensures var target := Target(o, settings, namespaceScope);
            var patched := Down(o, target).after;
            var plan := PlanOf(patched.annotations, namespace, config, created, now);
            var scopes := ScopesOf(o.annotations, settings, namespaceScope).value;
            && plan == (if GraceSkips(scopes, CreationTime(patched.annotations, config, created), now) then Skip
                        else Act(ScalingDown, Some(target)))
            && (PlanSends(plan, patched) <==> plan.Act? && !Settles(o, target))
  {
    hide Down, ParsedScope, IsExcluded, CurrentScaling, Settles, CreationTime, GraceSkips;
    var target := Target(o, settings, namespaceScope);
    ScalingKeepsTheScope(Lower(target), o, settings.formats);
    DownTwiceIsDownOnce(o, target);
  }

  /** The controller reads the formats, the namespace scope and the lower scopes that the webhook reads. */
  ghost predicate SameScopes(settings: Settings, namespaceScope: Option<Scope>, namespace: string, config: Config) {
    && config.formats == settings.formats && config.lowerScopes == settings.lowerScopes
    && namespace in config.namespaceScopes && namespaceScope == Some(config.namespaceScopes[namespace])
  }

  /** The scan of an object that the webhook has patched, when the target settles: nothing is written, whatever the
      faults and whatever the others do meanwhile. */
  method ScanPatched(server: ApiServer, i: nat, workload: Workload, metrics: NamespaceMetrics, config: Config,
                     created: Instant, now: Instant, world: World,
                     ghost o: Object, ghost settings: Settings, ghost namespaceScope: Option<Scope>)
    returns (end: ScanEnd)
    requires server.Valid() && OthersOnly(world, i)
    requires server.system.CopyOf(i) == Clean(workload.version, workload.Contents())
    requires Patches(o, settings, namespaceScope, now)
    requires SameScopes(settings, namespaceScope, workload.metadata.namespace, config)
    requires workload.Contents() == Down(o, Target(o, settings, namespaceScope)).after
    modifies server, workload, metrics
    ensures Settles(o, Target(o, settings, namespaceScope)) ==>
              |old(server.system.log)| <= |server.system.log| &&
              OwnWrites(server.system.log, |old(server.system.log)|, i) == 0
    ensures end.LeftAlone? || (end.Attempted? && end.scaling == ScalingDown)
  {
    hide Patches, Target, Down, PlanOf, PlanSends, Settles, OwnWrites, GraceSkips, KeepsOriginal, Grew, Run;
    ControllerAgrees(o, settings, namespaceScope, now, workload.metadata.namespace, config, created);
    end := ScanWorkload(server, i, workload, metrics, config, created, now, world);
  }
}
