/** What scaling makes of an object, field by field: which objects count as down, what a scale-down and a scale-up
    write, and what they report as saved. */
module Effects {
  import opened Wrappers
  import opened Decimal
  import opened Replicas
  import opened Annotations
  import opened Scaling
  import opened Laws

  // ----- down -----

  /** An object that a scale-down finds as it wants it: a count that is set and not above the target, a suspended job,
      the label that no node has, the service type and the ingress class that take no traffic from outside, and a
      limit that prints like the target. */
  predicate AlreadyDown(o: Object, target: Replicas) {
    match o.spec
    case Deployment(replicas) =>
      target.Absolute? && replicas.Some? && replicas.value != -1 && replicas.value <= target.n
    case ScaledObject =>
      && target.Absolute? && PausedReplicasKey in o.annotations
      && ParseInt32(o.annotations[PausedReplicasKey]).Some?
      && ParseInt32(o.annotations[PausedReplicasKey]).value != -1
      && ParseInt32(o.annotations[PausedReplicasKey]).value <= target.n
    case Hpa(min, _) =>
      target.Absolute? && min.Some? && min.value != -1 && min.value <= target.n
    case CronJob(suspend) => suspend
    case DaemonSet(nodeSelector) => "downscaler/match-none" in nodeSelector
    case Service(serviceType) => serviceType == "ClusterIP"
    case Ingress(className) => className == Some("kube-downscaler-ingress-class")
    case DisruptionBudget(Some(limit), _) => FromIntOrStr(limit).String() == target.String()
    case DisruptionBudget(None, Some(limit)) => FromIntOrStr(limit).String() == target.String()
    case DisruptionBudget(None, None) => true
  }

  /** What is written to an object that is not down. */
  predicate IsLowered(before: Object, after: Object, target: Replicas) {
    match before.spec
    case Deployment(_) => target.Absolute? && after.spec == Deployment(Some(target.n))
    case ScaledObject =>
      && target.Absolute? && after.spec.ScaledObject?
      && (target.n == -1 ==> PausedReplicasKey !in after.annotations)
      && (target.n != -1 ==>
            PausedReplicasKey in after.annotations && after.annotations[PausedReplicasKey] == Itoa(target.n))
    case Hpa(_, max) =>
      target.Absolute? && 1 <= target.n && after.spec == Hpa(Some(if max < target.n then max else target.n), max)
    case CronJob(_) => after.spec == CronJob(true)
    case DaemonSet(nodeSelector) => after.spec == DaemonSet(nodeSelector["downscaler/match-none" := "true"])
    case Service(_) => after.spec == Service("ClusterIP")
    case Ingress(_) => after.spec == Ingress(Some("kube-downscaler-ingress-class"))
    case DisruptionBudget(Some(_), other) => after.spec == DisruptionBudget(Some(target.AsIntStr()), other)
    case DisruptionBudget(None, _) => after.spec == DisruptionBudget(None, Some(target.AsIntStr()))
  }

  /** A scale-down that works leaves the object down, and leaves alone one that is down already. */
  lemma DownIsDown(o: Object, target: Replicas)
    ensures var down := Down(o, target);
            && (AlreadyDown(o, target) ==> !SendsUpdate(Lower(target), o) && down.after == o)
            && (!AlreadyDown(o, target) && down.report.Success? ==>
                  SendsUpdate(Lower(target), o) && IsLowered(o, down.after, target))
  {
    hide Parse, FromIntOrStr, Itoa, Replicas.AsIntStr, OriginalOf, ReplicasDown;
    if o.spec.ReplicaScaled() { CountIsDown(o, target); }
  }

  lemma CountIsDown(o: Object, target: Replicas)
    requires o.spec.ReplicaScaled()
    ensures var down := ReplicasDown(o, target);
            && (AlreadyDown(o, target) ==> !down.UpdateNeeded() && down.after == o)
            && (!AlreadyDown(o, target) && down.report.Success? ==>
                  down.UpdateNeeded() && IsLowered(o, down.after, target))
  {
    hide OriginalOf, Itoa;
  }

  // ----- up -----

  /** What a scale-up writes from the record `r`. */
  predicate IsRaised(before: Object, after: Object, r: Replicas) {
    match before.spec
    case Deployment(_) => r.Absolute? && after.spec == Deployment(Some(r.n))
    case ScaledObject =>
      && r.Absolute? && after.spec.ScaledObject?
      && (r.n == -1 ==> PausedReplicasKey !in after.annotations)
      && (r.n != -1 ==> PausedReplicasKey in after.annotations && after.annotations[PausedReplicasKey] == Itoa(r.n))
    case Hpa(_, max) =>
      r.Absolute? && 1 <= r.n && after.spec == Hpa(Some(if max < r.n then max else r.n), max)
    case CronJob(_) => r.Boolean? && after.spec == CronJob(r.b)
    case DaemonSet(nodeSelector) => after.spec == DaemonSet(nodeSelector - {"downscaler/match-none"})
    case Service(_) => r.String() in {"LoadBalancer", "ClusterIP"} && after.spec == Service(r.String())
    case Ingress(_) => after.spec == Ingress(Some(r.String()))
    case DisruptionBudget(Some(_), other) => after.spec == DisruptionBudget(Some(r.AsIntStr()), other)
    case DisruptionBudget(None, Some(_)) => after.spec == DisruptionBudget(None, Some(r.AsIntStr()))
    case DisruptionBudget(None, None) => after == before
  }

  /** A scale-up that works writes the record and deletes it; without a record nothing happens. */
  lemma UpIsUp(o: Object)
    ensures Unannotated(o) ==> Up(o).after == o && !SendsUpdate(Raise, o)
    ensures var up := Up(o);
            !Unannotated(o) && up.report.Success? ==>
              && Parse(o.annotations[OriginalReplicasKey]).Some?
              && IsRaised(o, up.after, Parse(o.annotations[OriginalReplicasKey]).value)
              && (SendsUpdate(Raise, o) ==> Unannotated(up.after))
              && (!SendsUpdate(Raise, o) ==> up.after == o && o.spec == DisruptionBudget(None, None))
  {
    hide Parse, Replicas.String, Replicas.AsIntStr, ReplicasUp;
    if Unannotated(o) {
      UnannotatedStaysUp(o);
    } else if o.spec.ReplicaScaled() {
      CountIsUp(o);
    }
  }

  lemma CountIsUp(o: Object)
    requires o.spec.ReplicaScaled() && !Unannotated(o)
    ensures var up := ReplicasUp(o);
            up.report.Success? ==>
              && Parse(o.annotations[OriginalReplicasKey]).Some?
              && IsRaised(o, up.after, Parse(o.annotations[OriginalReplicasKey]).value)
              && up.UpdateNeeded() && Unannotated(up.after)
  {
    hide Parse, Itoa;
  }

  // ----- errors -----

  /** There is a record and it cannot be used: it does not parse, or not to a value of the family. */
  predicate BadRecord(o: Object) {
    OriginalReplicasKey in o.annotations &&
    match Parse(o.annotations[OriginalReplicasKey])
    case None => true
    case Some(r) => (o.spec.ReplicaScaled() && !r.Absolute?) || (o.spec.CronJob? && !r.Boolean?)
  }

  /** The count cannot be read: it is not set, or its text is no number. */
  predicate NoCount(o: Object) {
    match o.spec
    case Deployment(replicas) => replicas.None?
    case Hpa(min, _) => min.None?
    case ScaledObject =>
      PausedReplicasKey in o.annotations && ParseInt32(o.annotations[PausedReplicasKey]).None?
    case _ => false
  }

  /** A scale-up fails for a count or class that cannot be read, for a record that cannot be used, and for one that
      the resource refuses. */
  lemma UpFailsExactly(o: Object)
    ensures Up(o).report.Failure? <==>
            || NoCount(o) || o.spec == Ingress(None) || BadRecord(o)
            || (!Unannotated(o) && Refuses(o.spec, Parse(o.annotations[OriginalReplicasKey]).value))
  {
    hide Parse, Replicas.String, Itoa;
  }

  /** An autoscaler refuses a minimum below 1, and a service all types but two. */
  predicate Refuses(spec: Spec, r: Replicas) {
    || (spec.Hpa? && r.Absolute? && r.n < 1)
    || (spec.Service? && r.String() != "LoadBalancer" && r.String() != "ClusterIP")
  }

  /** A scale-down fails for a target that is no count where one is needed, for a count or class that cannot be read,
      for a target that the resource refuses, and, on an object that is down already, for a record that cannot be
      used. A job that is down accepts a record of any kind, and so does a budget whatever is on record. */
  lemma DownFailsExactly(o: Object, target: Replicas)
    ensures Down(o, target).report.Failure? <==>
            || NoCount(o) || o.spec == Ingress(None)
            || (o.spec.ReplicaScaled() && !target.Absolute?)
            || (o.spec.Hpa? && !AlreadyDown(o, target) && target.n < 1)
            || (AlreadyDown(o, target) && o.spec.ReplicaScaled() && BadRecord(o))
            || (AlreadyDown(o, target) && !o.spec.DisruptionBudget? && OriginalOf(o.annotations) == Unreadable)
  {
    hide Parse, Itoa, FromIntOrStr;
  }

  // ----- savings -----

  /** When a target is raised after the drop, the saving is that of the new target, and nothing is written. */
  lemma RaisedTargetSaves(o: Object, r0: Int32, first: Int32, second: Int32)
    requires o.spec == Deployment(Some(r0)) && 0 <= first < r0 && first <= second
    ensures var down := Down(o, Absolute(first)).after;
            Down(down, Absolute(second)) == Outcome(down, Success(Summary(false, o.request * Wrap32(r0 - second))))
    ensures second <= r0 ==> Wrap32(r0 - second) == r0 - second
  {
    hide Parse;
    CountReads(r0);
    var down := Down(o, Absolute(first)).after;
    assert OriginalOf(down.annotations) == Recorded(Absolute(r0));
    if second <= r0 { Wrap32Identity(r0 - second); }
  }

  /** A job or a daemon set saves its request for as long as it is down by scaling, and nothing when it was down
      before. */
  lemma SwitchSaves(o: Object, target: Replicas)
    requires Unannotated(o) && (o.spec.CronJob? || o.spec.DaemonSet?)
    ensures AlreadyDown(o, target) ==> Down(o, target).report == Success(Summary(false, 0))
    ensures !AlreadyDown(o, target) ==>
              && Down(o, target).report == Success(Summary(true, o.request))
              && Down(Down(o, target).after, target).report == Success(Summary(false, o.request))
  {
    RoundTrip(Boolean(false));
    hide Parse;
    if !AlreadyDown(o, target) {
      assert OriginalOf(Down(o, target).after.annotations) == Recorded(Boolean(false));
    }
  }

  /** A scale-up saves nothing, and neither does an object of another kind. */
  lemma OthersSaveNothing(d: Decision, o: Object)
    requires d.Raise? || !(o.spec.Deployment? || o.spec.CronJob? || o.spec.DaemonSet?)
    ensures Apply(d, o).report.Success? ==> Apply(d, o).report.value.saved == 0
  {
    hide Parse, FromIntOrStr, Replicas.String, Replicas.AsIntStr, GetReplicas, SetReplicas, SetValue;
  }
}
