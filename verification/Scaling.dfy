/** What scaling does to an object, as functions of the object's contents: one pair of functions for
    each of the five workload families of `internal/pkg/scalable`. The workload class is proved
    against these functions, and the laws of the protocol are proved about them. */
module Scaling {
  import opened Wrappers
  import opened Decimal
  import opened Replicas
  import opened Annotations

  const MATCH_NONE := "downscaler/match-none"
  const INGRESS_CLASS := "kube-downscaler-ingress-class"

  /** The part of an object that its family scales. A ScaledObject keeps its replica count in an
      annotation, so it has no field of its own. */
  datatype Spec =
    | Deployment(replicas: Option<Int32>)
    | ScaledObject
    | Hpa(minReplicas: Option<Int32>, maxReplicas: Int32)
    | CronJob(suspend: bool)
    | Service(serviceType: string)
    | Ingress(className: Option<string>)
    | DaemonSet(nodeSelector: map<string, string>)
    | DisruptionBudget(maxUnavailable: Option<IntOrString>, minAvailable: Option<IntOrString>)
  {
    predicate ReplicaScaled() { Deployment? || ScaledObject? || Hpa? }
    predicate ValueScaled() { Service? || Ingress? }
  }

  /** `request` is the resource request of one replica of a Deployment, of one run of a CronJob, or of
      all scheduled pods of a DaemonSet. */
  datatype Object = Object(spec: Spec, annotations: Annotations, request: nat)

  datatype Error =
    | NoReplicas            // the replica count is not set
    | BadPausedReplicas     // the paused-replicas annotation is not an int32
    | NotAnInt32            // a percentage, boolean or text where a count is needed
    | NotABool              // anything but a boolean where a boolean is needed
    | BadOriginal           // the original-replicas annotation does not parse
    | BoundsExceeded        // an autoscaler minimum below 1
    | UnexpectedOriginal    // a service type other than the two supported ones
    | NoIngressClass        // the ingress class is not set

  datatype Summary = Summary(updateNeeded: bool, saved: int)

  datatype Outcome = Outcome(after: Object, report: Result<Summary, Error>) {
    predicate UpdateNeeded() { report.Success? && report.value.updateNeeded }
  }

  function Unchanged(o: Object, saved: int): Outcome {
    Outcome(o, Success(Summary(false, saved)))
  }

  function Changed(o: Object, saved: int): Outcome {
    Outcome(o, Success(Summary(true, saved)))
  }

  function Failed(o: Object, error: Error): Outcome {
    Outcome(o, Failure(error))
  }

  // ----- the recorded original -----

  datatype Original = Unset | Unreadable | Recorded(value: Replicas)

  function OriginalOf(annotations: Annotations): Original {
    if OriginalReplicasKey !in annotations then Unset
    else
      match Parse(annotations[OriginalReplicasKey])
      case Some(r) => Recorded(r)
      case None => Unreadable
  }

  function Record(o: Object, r: Replicas): Object {
    o.(annotations := o.annotations[OriginalReplicasKey := r.String()])
  }

  function Forget(o: Object): Object {
    o.(annotations := o.annotations - {OriginalReplicasKey})
  }

  // ----- replicas -----

  function GetReplicas(o: Object): Result<Int32, Error>
    requires o.spec.ReplicaScaled()
  {
    match o.spec
    case Deployment(None) => Failure(NoReplicas)
    case Deployment(Some(n)) => Success(n)
    case Hpa(None, _) => Failure(NoReplicas)
    case Hpa(Some(n), _) => Success(n)
    case ScaledObject =>
      if PausedReplicasKey !in o.annotations then Success(UNDEFINED)
      else
        match ParseInt32(o.annotations[PausedReplicasKey])
        case Some(n) => Success(n)
        case None => Failure(BadPausedReplicas)
  }

  function SetReplicas(o: Object, n: Int32): Result<Object, Error>
    requires o.spec.ReplicaScaled()
  {
    match o.spec
    case Deployment(_) => Success(o.(spec := Deployment(Some(n))))
    case Hpa(_, max) =>
      if n < 1 then Failure(BoundsExceeded)
      else Success(o.(spec := Hpa(Some(if n > max then max else n), max)))
    case ScaledObject =>
      Success(o.(annotations := SetPaused(o.annotations, n)))
  }

  /** A ScaledObject without a paused count has no paused-replicas annotation. */
  function SetPaused(annotations: Annotations, n: Int32): Annotations {
    if n == UNDEFINED then annotations - {PausedReplicasKey} else annotations[PausedReplicasKey := Itoa(n)]
  }

  /** Only a Deployment's own pods count as saved; the difference is an int32 in the source. */
  function SavedBy(o: Object, difference: int): int {
    if o.spec.Deployment? then o.request * Wrap32(difference) else 0
  }

  function ReplicasUp(o: Object): Outcome
    requires o.spec.ReplicaScaled()
  {
    match GetReplicas(o)
    case Failure(e) => Failed(o, e)
    case Success(_) =>
      match OriginalOf(o.annotations)
      case Unset => Unchanged(o, 0)
      case Unreadable => Failed(o, BadOriginal)
      case Recorded(r) =>
        match r.AsInt32()
        case None => Failed(o, NotAnInt32)
        case Some(n) =>
          match SetReplicas(o, n)
          case Failure(e) => Failed(o, e)
          case Success(o') => Changed(Forget(o'), 0)
  }

  function ReplicasDown(o: Object, target: Replicas): Outcome
    requires o.spec.ReplicaScaled()
  {
    match target.AsInt32()
    case None => Failed(o, NotAnInt32)
    case Some(t) =>
      match GetReplicas(o)
      case Failure(e) => Failed(o, e)
      case Success(current) =>
        if current != UNDEFINED && current <= t then
          match OriginalOf(o.annotations)
          case Unset => Unchanged(o, 0)
          case Unreadable => Failed(o, BadOriginal)
          case Recorded(r) =>
            match r.AsInt32()
            case None => Failed(o, NotAnInt32)
            case Some(n) => Unchanged(o, SavedBy(o, n - t))
        else
          match SetReplicas(o, t)
          case Failure(e) => Failed(o, e)
          case Success(o') => Changed(Record(o', Absolute(current)), SavedBy(o, current - t))
  }

  // ----- suspend -----

  function SuspendUp(o: Object): Outcome
    requires o.spec.CronJob?
  {
    match OriginalOf(o.annotations)
    case Unset => Unchanged(o, 0)
    case Unreadable => Failed(o, BadOriginal)
    case Recorded(r) =>
      match r.AsBool()
      case None => Failed(o, NotABool)
      case Some(b) => Changed(Forget(o.(spec := CronJob(b))), 0)
  }

  function SuspendDown(o: Object): Outcome
    requires o.spec.CronJob?
  {
    if o.spec.suspend then
      match OriginalOf(o.annotations)
      case Unset => Unchanged(o, 0)
      case Unreadable => Failed(o, BadOriginal)
      case Recorded(_) => Unchanged(o, o.request)
    else Changed(Record(o.(spec := CronJob(true)), Boolean(o.spec.suspend)), o.request)
  }

  // ----- values -----

  function GetValue(o: Object): Result<string, Error>
    requires o.spec.ValueScaled()
  {
    match o.spec
    case Service(serviceType) => Success(serviceType)
    case Ingress(None) => Failure(NoIngressClass)
    case Ingress(Some(name)) => Success(name)
  }

  function DownValue(spec: Spec): string
    requires spec.ValueScaled()
  {
    if spec.Service? then "ClusterIP" else INGRESS_CLASS
  }

  function SetValue(o: Object, r: Replicas): Result<Object, Error>
    requires o.spec.ValueScaled()
  {
    var text := r.String();
    match o.spec
    case Service(_) =>
      if text != "LoadBalancer" && text != "ClusterIP" then Failure(UnexpectedOriginal)
      else Success(o.(spec := Service(text)))
    case Ingress(_) => Success(o.(spec := Ingress(Some(text))))
  }

  function ValueUp(o: Object): Outcome
    requires o.spec.ValueScaled()
  {
    match GetValue(o)
    case Failure(e) => Failed(o, e)
    case Success(_) =>
      match OriginalOf(o.annotations)
      case Unset => Unchanged(o, 0)
      case Unreadable => Failed(o, BadOriginal)
      case Recorded(r) =>
        match SetValue(o, r)
        case Failure(e) => Failed(o, e)
        case Success(o') => Changed(Forget(o'), 0)
  }

  function ValueDown(o: Object): Outcome
    requires o.spec.ValueScaled()
  {
    match GetValue(o)
    case Failure(e) => Failed(o, e)
    case Success(current) =>
      if current == DownValue(o.spec) then
        if OriginalOf(o.annotations).Unreadable? then Failed(o, BadOriginal) else Unchanged(o, 0)
      else
        match SetValue(o, Text(DownValue(o.spec)))
        case Failure(e) => Failed(o, e)
        case Success(o') => Changed(Record(o', Text(current)), 0)
  }

  // ----- node selector -----

  function SelectorUp(o: Object): Outcome
    requires o.spec.DaemonSet?
  {
    match OriginalOf(o.annotations)
    case Unset => Unchanged(o, 0)
    case Unreadable => Failed(o, BadOriginal)
    case Recorded(_) => Changed(Forget(o.(spec := DaemonSet(o.spec.nodeSelector - {MATCH_NONE}))), 0)
  }

  function SelectorDown(o: Object): Outcome
    requires o.spec.DaemonSet?
  {
    if MATCH_NONE in o.spec.nodeSelector then
      match OriginalOf(o.annotations)
      case Unset => Unchanged(o, 0)
      case Unreadable => Failed(o, BadOriginal)
      case Recorded(_) => Unchanged(o, o.request)
    else
      Changed(Record(o.(spec := DaemonSet(o.spec.nodeSelector[MATCH_NONE := "true"])), Boolean(false)), o.request)
  }

  // ----- disruption budget -----

  /** The limit that scaling acts on: maxUnavailable when both are set. */
  function Limit(spec: Spec): Option<IntOrString>
    requires spec.DisruptionBudget?
  {
    if spec.maxUnavailable.Some? then spec.maxUnavailable else spec.minAvailable
  }

  function SetLimit(spec: Spec, limit: IntOrString): Spec
    requires spec.DisruptionBudget? && Limit(spec).Some?
  {
    if spec.maxUnavailable.Some? then spec.(maxUnavailable := Some(limit))
    else spec.(minAvailable := Some(limit))
  }

  function BudgetUp(o: Object): Outcome
    requires o.spec.DisruptionBudget?
  {
    match OriginalOf(o.annotations)
    case Unset => Unchanged(o, 0)
    case Unreadable => Failed(o, BadOriginal)
    case Recorded(r) =>
      if Limit(o.spec).None? then Unchanged(o, 0)
      else Changed(Forget(o.(spec := SetLimit(o.spec, r.AsIntStr()))), 0)
  }

  function BudgetDown(o: Object, target: Replicas): Outcome
    requires o.spec.DisruptionBudget?
  {
    match Limit(o.spec)
    case None => Unchanged(o, 0)
    case Some(limit) =>
      var current := FromIntOrStr(limit);
      if current.String() == target.String() then Unchanged(o, 0)
      else Changed(Record(o.(spec := SetLimit(o.spec, target.AsIntStr())), current), 0)
  }

  // ----- all families -----

  function Up(o: Object): Outcome {
    match o.spec
    case Deployment(_) => ReplicasUp(o)
    case ScaledObject => ReplicasUp(o)
    case Hpa(_, _) => ReplicasUp(o)
    case CronJob(_) => SuspendUp(o)
    case Service(_) => ValueUp(o)
    case Ingress(_) => ValueUp(o)
    case DaemonSet(_) => SelectorUp(o)
    case DisruptionBudget(_, _) => BudgetUp(o)
  }

  function Down(o: Object, target: Replicas): Outcome {
    match o.spec
    case Deployment(_) => ReplicasDown(o, target)
    case ScaledObject => ReplicasDown(o, target)
    case Hpa(_, _) => ReplicasDown(o, target)
    case CronJob(_) => SuspendDown(o)
    case Service(_) => ValueDown(o)
    case Ingress(_) => ValueDown(o)
    case DaemonSet(_) => SelectorDown(o)
    case DisruptionBudget(_, _) => BudgetDown(o, target)
  }

  /** What a scan wants of a workload. */
  datatype Decision = Lower(target: Replicas) | Raise

  function Apply(d: Decision, o: Object): Outcome {
    match d
    case Lower(target) => Down(o, target)
    case Raise => Up(o)
  }

  predicate SendsUpdate(d: Decision, o: Object) {
    Apply(d, o).UpdateNeeded()
  }

  predicate Unannotated(o: Object) {
    OriginalReplicasKey !in o.annotations
  }
}
