/** A workload as a controller instance or the webhook holds it: a local copy of an object, changed in
    place by scaling and refreshed in place by a re-read. Every scaling method does to the copy what
    the function of the same family in `Scaling` says. */
module Workloads {
  import opened Wrappers
  import opened Decimal
  import opened Replicas
  import opened Annotations
  import opened Scaling
  import opened Metadata

  class Workload {
    const metadata: Metadata
    var spec: Spec
    var annotations: Annotations
    var request: nat
    /** The resource version this copy was read at. */
    var version: nat

    constructor (metadata: Metadata, o: Object, version: nat)
      ensures Contents() == o && this.version == version && this.metadata == metadata
    {
      this.metadata := metadata;
      spec := o.spec;
      annotations := o.annotations;
      request := o.request;
      this.version := version;
    }

    function Contents(): Object
      reads this
    {
      Object(spec, annotations, request)
    }

    /** Replaces the copy by what was read from the server. */
    method Refresh(o: Object, version: nat)
      modifies this
      ensures Contents() == o && this.version == version
    {
      spec := o.spec;
      annotations := o.annotations;
      request := o.request;
      this.version := version;
    }

    /** A deep copy. */
    method Copy() returns (copy: Workload)
      ensures fresh(copy)
      ensures copy.Contents() == Contents() && copy.version == version && copy.metadata == metadata
    {
      copy := new Workload(metadata, Contents(), version);
    }

    // ----- the recorded original -----

    method SetOriginalReplicas(r: Replicas)
      modifies this`annotations
      ensures Contents() == Record(old(Contents()), r)
    {
      annotations := annotations[OriginalReplicasKey := r.String()];
    }

    method GetOriginalReplicas() returns (original: Original)
      ensures original == OriginalOf(annotations)
    {
      if OriginalReplicasKey !in annotations {
        return Unset;
      }
      var value := new ReplicasValue(None);
      var ok := value.Set(annotations[OriginalReplicasKey]);
      if !ok {
        return Unreadable;
      }
      return Recorded(value.replicas.value);
    }

    method RemoveOriginalReplicas()
      modifies this`annotations
      ensures Contents() == Forget(old(Contents()))
    {
      annotations := annotations - {OriginalReplicasKey};
    }

    // ----- replicas -----

    method SetReplicas(n: Int32) returns (error: Option<Error>)
      requires spec.ReplicaScaled()
      modifies this`spec, this`annotations
      ensures match Scaling.SetReplicas(old(Contents()), n)
              case Failure(e) => error == Some(e) && Contents() == old(Contents())
              case Success(o) => error == None && Contents() == o
    {
      match spec {
        case Deployment(_) =>
          spec := Deployment(Some(n));
        case Hpa(_, max) =>
          if n < 1 {
            return Some(BoundsExceeded);
          }
          if n > max {
            spec := Hpa(Some(max), max);
            return None;
          }
          spec := Hpa(Some(n), max);
        case ScaledObject =>
          if n == UNDEFINED {
            annotations := annotations - {PausedReplicasKey};
            return None;
          }
          annotations := annotations[PausedReplicasKey := Itoa(n)];
      }
      return None;
    }

    method ReplicasScaleUp() returns (report: Result<Summary, Error>)
      requires spec.ReplicaScaled()
      modifies this`spec, this`annotations
      ensures Outcome(Contents(), report) == ReplicasUp(old(Contents()))
    {
      hide Parse;
      var current := GetReplicas(Contents());
      if current.Failure? {
        return Failure(current.error);
      }
      var original := GetOriginalReplicas();
      if original.Unset? {
        return Success(Summary(false, 0));
      }
      if original.Unreadable? {
        return Failure(BadOriginal);
      }
      var count := original.value.AsInt32();
      if count.None? {
        return Failure(NotAnInt32);
      }
      var error := SetReplicas(count.value);
      if error.Some? {
        return Failure(error.value);
      }
      RemoveOriginalReplicas();
      return Success(Summary(true, 0));
    }

    method ReplicasScaleDown(target: Replicas) returns (report: Result<Summary, Error>)
      requires spec.ReplicaScaled()
      modifies this`spec, this`annotations
      ensures Outcome(Contents(), report) == ReplicasDown(old(Contents()), target)
    {
      hide Parse;
      var count := target.AsInt32();
      if count.None? {
        return Failure(NotAnInt32);
      }
      var current := GetReplicas(Contents());
      if current.Failure? {
        return Failure(current.error);
      }
      if current.value != UNDEFINED && current.value <= count.value {
        var original := GetOriginalReplicas();
        if original.Unreadable? {
          return Failure(BadOriginal);
        }
        if original.Unset? {
          return Success(Summary(false, 0));
        }
        var recorded := original.value.AsInt32();
        if recorded.None? {
          return Failure(NotAnInt32);
        }
        var difference := recorded.value as int - count.value as int;
        return Success(Summary(false, SavedBy(Contents(), difference)));
      }
      var error := SetReplicas(count.value);
      if error.Some? {
        return Failure(error.value);
      }
      var difference := current.value as int - count.value as int;
      var saved := SavedBy(Contents(), difference);
      SetOriginalReplicas(Absolute(current.value));
      return Success(Summary(true, saved));
    }

    // ----- suspend -----

    method SuspendScaleUp() returns (report: Result<Summary, Error>)
      requires spec.CronJob?
      modifies this`spec, this`annotations
      ensures Outcome(Contents(), report) == SuspendUp(old(Contents()))
    {
      var original := GetOriginalReplicas();
      if original.Unset? {
        return Success(Summary(false, 0));
      }
      if original.Unreadable? {
        return Failure(BadOriginal);
      }
      var suspended := original.value.AsBool();
      if suspended.None? {
        return Failure(NotABool);
      }
      spec := CronJob(suspended.value);
      RemoveOriginalReplicas();
      return Success(Summary(true, 0));
    }

    method SuspendScaleDown() returns (report: Result<Summary, Error>)
      requires spec.CronJob?
      modifies this`spec, this`annotations
      ensures Outcome(Contents(), report) == SuspendDown(old(Contents()))
    {
      var current := spec.suspend;
      if current {
        var original := GetOriginalReplicas();
        if original.Unreadable? {
          return Failure(BadOriginal);
        }
        return Success(Summary(false, if original.Unset? then 0 else request));
      }
      spec := CronJob(true);
      SetOriginalReplicas(Boolean(current));
      return Success(Summary(true, request));
    }

    // ----- values -----

    method SetValue(r: Replicas) returns (error: Option<Error>)
      requires spec.ValueScaled()
      modifies this`spec
      ensures match Scaling.SetValue(old(Contents()), r)
              case Failure(e) => error == Some(e) && Contents() == old(Contents())
              case Success(o) => error == None && Contents() == o
    {
      var text := r.String();
      if spec.Service? {
        if text != "LoadBalancer" && text != "ClusterIP" {
          return Some(UnexpectedOriginal);
        }
        spec := Service(text);
      } else {
        spec := Ingress(Some(text));
      }
      return None;
    }

    method ValueScaleUp() returns (report: Result<Summary, Error>)
      requires spec.ValueScaled()
      modifies this`spec, this`annotations
      ensures Outcome(Contents(), report) == ValueUp(old(Contents()))
    {
      var current := GetValue(Contents());
      if current.Failure? {
        return Failure(current.error);
      }
      var original := GetOriginalReplicas();
      if original.Unset? {
        return Success(Summary(false, 0));
      }
      if original.Unreadable? {
        return Failure(BadOriginal);
      }
      var error := SetValue(original.value);
      if error.Some? {
        return Failure(error.value);
      }
      RemoveOriginalReplicas();
      return Success(Summary(true, 0));
    }

    method ValueScaleDown() returns (report: Result<Summary, Error>)
      requires spec.ValueScaled()
      modifies this`spec, this`annotations
      ensures Outcome(Contents(), report) == ValueDown(old(Contents()))
    {
      var current := GetValue(Contents());
      if current.Failure? {
        return Failure(current.error);
      }
      var target := DownValue(spec);
      if current.value == target {
        var original := GetOriginalReplicas();
        if original.Unreadable? {
          return Failure(BadOriginal);
        }
        return Success(Summary(false, 0));
      }
      var error := SetValue(Text(target));
      if error.Some? {
        return Failure(error.value);
      }
      SetOriginalReplicas(Text(current.value));
      return Success(Summary(true, 0));
    }

    // ----- node selector -----

    method SelectorScaleUp() returns (report: Result<Summary, Error>)
      requires spec.DaemonSet?
      modifies this`spec, this`annotations
      ensures Outcome(Contents(), report) == SelectorUp(old(Contents()))
    {
      var original := GetOriginalReplicas();
      if original.Unset? {
        return Success(Summary(false, 0));
      }
      if original.Unreadable? {
        return Failure(BadOriginal);
      }
      spec := DaemonSet(spec.nodeSelector - {MATCH_NONE});
      RemoveOriginalReplicas();
      return Success(Summary(true, 0));
    }

    method SelectorScaleDown() returns (report: Result<Summary, Error>)
      requires spec.DaemonSet?
      modifies this`spec, this`annotations
      ensures Outcome(Contents(), report) == SelectorDown(old(Contents()))
    {
      if MATCH_NONE in spec.nodeSelector {
        var original := GetOriginalReplicas();
        if original.Unreadable? {
          return Failure(BadOriginal);
        }
        return Success(Summary(false, if original.Unset? then 0 else request));
      }
      spec := DaemonSet(spec.nodeSelector[MATCH_NONE := "true"]);
      SetOriginalReplicas(Boolean(false));
      return Success(Summary(true, request));
    }

    // ----- disruption budget -----

    method BudgetScaleUp() returns (report: Result<Summary, Error>)
      requires spec.DisruptionBudget?
      modifies this`spec, this`annotations
      ensures Outcome(Contents(), report) == BudgetUp(old(Contents()))
    {
      hide Parse, Replicas.AsIntStr;
      var original := GetOriginalReplicas();
      if original.Unset? {
        return Success(Summary(false, 0));
      }
      if original.Unreadable? {
        return Failure(BadOriginal);
      }
      if spec.maxUnavailable.Some? {
        spec := spec.(maxUnavailable := Some(original.value.AsIntStr()));
        RemoveOriginalReplicas();
        return Success(Summary(true, 0));
      }
      if spec.minAvailable.Some? {
        spec := spec.(minAvailable := Some(original.value.AsIntStr()));
        RemoveOriginalReplicas();
        return Success(Summary(true, 0));
      }
      return Success(Summary(false, 0));
    }

    method BudgetScaleDown(target: Replicas) returns (report: Result<Summary, Error>)
      requires spec.DisruptionBudget?
      modifies this`spec, this`annotations
      ensures Outcome(Contents(), report) == BudgetDown(old(Contents()), target)
    {
      hide FromIntOrStr, Replicas.AsIntStr, Replicas.String;
      if spec.maxUnavailable.Some? {
        var maxUnavailable := FromIntOrStr(spec.maxUnavailable.value);
        if maxUnavailable.String() == target.String() {
          return Success(Summary(false, 0));
        }
        spec := spec.(maxUnavailable := Some(target.AsIntStr()));
        SetOriginalReplicas(maxUnavailable);
        return Success(Summary(true, 0));
      }
      if spec.minAvailable.Some? {
        var minAvailable := FromIntOrStr(spec.minAvailable.value);
        if minAvailable.String() == target.String() {
          return Success(Summary(false, 0));
        }
        spec := spec.(minAvailable := Some(target.AsIntStr()));
        SetOriginalReplicas(minAvailable);
        return Success(Summary(true, 0));
      }
      return Success(Summary(false, 0));
    }

    // ----- all families -----

    method ScaleUp() returns (report: Result<Summary, Error>)
      modifies this`spec, this`annotations
      ensures Outcome(Contents(), report) == Up(old(Contents()))
    {
      hide ReplicasUp, SuspendUp, ValueUp, SelectorUp, BudgetUp;
      match spec
      case Deployment(_) => report := ReplicasScaleUp();
      case ScaledObject => report := ReplicasScaleUp();
      case Hpa(_, _) => report := ReplicasScaleUp();
      case CronJob(_) => report := SuspendScaleUp();
      case Service(_) => report := ValueScaleUp();
      case Ingress(_) => report := ValueScaleUp();
      case DaemonSet(_) => report := SelectorScaleUp();
      case DisruptionBudget(_, _) => report := BudgetScaleUp();
    }

    method ScaleDown(target: Replicas) returns (report: Result<Summary, Error>)
      modifies this`spec, this`annotations
      ensures Outcome(Contents(), report) == Down(old(Contents()), target)
    {
      hide ReplicasDown, SuspendDown, ValueDown, SelectorDown, BudgetDown;
      match spec
      case Deployment(_) => report := ReplicasScaleDown(target);
      case ScaledObject => report := ReplicasScaleDown(target);
      case Hpa(_, _) => report := ReplicasScaleDown(target);
      case CronJob(_) => report := SuspendScaleDown();
      case Service(_) => report := ValueScaleDown();
      case Ingress(_) => report := ValueScaleDown();
      case DaemonSet(_) => report := SelectorScaleDown();
      case DisruptionBudget(_, _) => report := BudgetScaleDown(target);
    }
  }
}
