/** The counters of one namespace in one scan cycle (`internal/pkg/metrics/namespaceMetricsHolder.go`). */
module Metrics {

  datatype Counter = Downscaled | Upscaled | Excluded | InvalidScaling | Conflicts | Generic | WorkloadScope

  datatype Tally = Tally(
    downscaled: nat, upscaled: nat, excluded: nat, invalidScaling: nat, conflicts: nat, generic: nat,
    workloadScope: nat, namespaceScope: nat, saved: int)
  {
    /** The outcomes counted so far; the namespace mark and the savings are no outcomes. */
    function Outcomes(): nat {
      downscaled + upscaled + excluded + invalidScaling + conflicts + generic + workloadScope
    }

    function Count(c: Counter): nat {
      match c
      case Downscaled => downscaled
      case Upscaled => upscaled
      case Excluded => excluded
      case InvalidScaling => invalidScaling
      case Conflicts => conflicts
      case Generic => generic
      case WorkloadScope => workloadScope
    }

    function Bump(c: Counter): (t: Tally)
      ensures t.Outcomes() == Outcomes() + 1
      ensures forall k: Counter :: t.Count(k) == Count(k) + if k == c then 1 else 0
      ensures t.saved == saved && t.namespaceScope == namespaceScope
    {
      match c
      case Downscaled => this.(downscaled := downscaled + 1)
      case Upscaled => this.(upscaled := upscaled + 1)
      case Excluded => this.(excluded := excluded + 1)
      case InvalidScaling => this.(invalidScaling := invalidScaling + 1)
      case Conflicts => this.(conflicts := conflicts + 1)
      case Generic => this.(generic := generic + 1)
      case WorkloadScope => this.(workloadScope := workloadScope + 1)
    }

    function Save(amount: int): Tally {
      this.(saved := saved + amount)
    }
  }

  const ZERO := Tally(0, 0, 0, 0, 0, 0, 0, 0, 0)

  class NamespaceMetrics {
    var downscaledWorkloads: nat
    var upscaledWorkloads: nat
    var excludedWorkloads: nat
    var invalidScalingValueErrors: nat
    var conflictErrors: nat
    var genericErrors: nat
    var parsingWorkloadScopeErrors: nat
    var parsingNamespaceScopeErrors: nat
    var savedResources: int

    constructor ()
      ensures Counts() == ZERO
    {
      downscaledWorkloads, upscaledWorkloads, excludedWorkloads := 0, 0, 0;
      invalidScalingValueErrors, conflictErrors, genericErrors := 0, 0, 0;
      parsingWorkloadScopeErrors, parsingNamespaceScopeErrors, savedResources := 0, 0, 0;
    }

    function Counts(): Tally
      reads this
    {
      Tally(downscaledWorkloads, upscaledWorkloads, excludedWorkloads, invalidScalingValueErrors,
            conflictErrors, genericErrors, parsingWorkloadScopeErrors, parsingNamespaceScopeErrors, savedResources)
    }

    method Increment(c: Counter)
      modifies this
      ensures Counts() == old(Counts()).Bump(c)
      ensures downscaledWorkloads == old(downscaledWorkloads) + if c.Downscaled? then 1 else 0
      ensures upscaledWorkloads == old(upscaledWorkloads) + if c.Upscaled? then 1 else 0
      ensures excludedWorkloads == old(excludedWorkloads) + if c.Excluded? then 1 else 0
      ensures invalidScalingValueErrors == old(invalidScalingValueErrors) + if c.InvalidScaling? then 1 else 0
      ensures conflictErrors == old(conflictErrors) + if c.Conflicts? then 1 else 0
      ensures genericErrors == old(genericErrors) + if c.Generic? then 1 else 0
      ensures parsingWorkloadScopeErrors == old(parsingWorkloadScopeErrors) + if c.WorkloadScope? then 1 else 0
    {
      match c
      case Downscaled => downscaledWorkloads := downscaledWorkloads + 1;
      case Upscaled => upscaledWorkloads := upscaledWorkloads + 1;
      case Excluded => excludedWorkloads := excludedWorkloads + 1;
      case InvalidScaling => invalidScalingValueErrors := invalidScalingValueErrors + 1;
      case Conflicts => conflictErrors := conflictErrors + 1;
      case Generic => genericErrors := genericErrors + 1;
      case WorkloadScope => parsingWorkloadScopeErrors := parsingWorkloadScopeErrors + 1;
    }

    /** The mark is set, not counted. */
    method MarkParsingNamespaceScopeError()
      modifies this
      ensures Counts() == old(Counts()).(namespaceScope := 1)
    {
      parsingNamespaceScopeErrors := 1;
    }

    method IncrementSavedResources(amount: int)
      modifies this
      ensures Counts() == old(Counts()).Save(amount)
    {
      savedResources := savedResources + amount;
    }
  }

  /** The holders of one cycle, one for each namespace seen. */
  class CycleMetrics {
    var holders: map<string, NamespaceMetrics>

    constructor ()
      ensures Valid() && holders == map[]
    {
      holders := map[];
    }

    ghost predicate Valid()
      reads this
    {
      forall a, b :: a in holders && b in holders && a != b ==> holders[a] != holders[b]
    }

    function Counts(namespace: string): Tally
      reads this, holders.Values
    {
      if namespace in holders then holders[namespace].Counts() else ZERO
    }

    /** Makes sure the namespace has a holder. */
    method Register(namespace: string)
      requires Valid()
      modifies this
      ensures Valid() && namespace in holders
      ensures old(holders.Keys) <= holders.Keys
      ensures forall ns :: ns in old(holders) ==> holders[ns] == old(holders)[ns]
      ensures forall ns :: ns in holders && ns !in old(holders) ==> fresh(holders[ns])
      ensures forall ns: string :: Counts(ns) == old(Counts(ns))
    {
      if namespace !in holders {
        var holder := new NamespaceMetrics();
        holders := holders[namespace := holder];
      }
    }

    method Increment(namespace: string, c: Counter)
      requires Valid() && namespace in holders
      modifies holders[namespace]
      ensures Counts(namespace) == old(Counts(namespace)).Bump(c)
      ensures forall ns: string :: ns != namespace ==> Counts(ns) == old(Counts(ns))
    {
      holders[namespace].Increment(c);
    }
  }
}
