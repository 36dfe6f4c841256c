/** One scan of one workload, and one cycle over all listed workloads (`cmd/kubedownscaler/main.go`). */
module Scan {
  import opened Wrappers
  import opened Replicas
  import opened Annotations
  import opened TimeSpans
  import opened Schedule
  import opened ScopeParser
  import opened Decisions
  import opened Scaling
  import opened Cluster
  import opened Workloads
  import opened Metrics
  import opened Controller
  import opened Metadata
  import opened Filter

  /** What a controller is configured with, and the lower three scopes. */
  datatype Config = Config(
    formats: Formats,
    lowerScopes: Scopes,
    namespaceScopes: map<string, Scope>,
    timeAnnotation: Key,
    maxRetries: int,
    dryRun: bool)

  // ----- what a scan wants -----

  datatype Plan = BadWorkloadScope | NoNamespaceScope | Skip | Act(scaling: ScalingKind, target: Option<Replicas>)

  /** The creation-time annotation, if present, replaces the creation timestamp. */
  function CreationTime(annotations: Annotations, config: Config, created: Instant): Option<Instant> {
    if config.timeAnnotation in annotations then config.formats.timestamp(annotations[config.timeAnnotation])
    else Some(created)
  }

  /** Skipped: within the grace period, or its creation time is needed and unreadable, or excluded and not to be
      scaled up for that. */
  ghost predicate Skipped(scopes: Scopes, created: Option<Instant>, now: Instant) {
    GraceSkips(scopes, created, now) || (IsExcluded(scopes, now) && !GetUpscaleExcluded(scopes))
  }

  ghost predicate GraceSkips(scopes: Scopes, created: Option<Instant>, now: Instant) {
    || (created.None? && exists i: nat :: FirstGrace(scopes, i))
    || (created.Some? && InGrace(scopes, created.value, now))
  }

  ghost function PlanOfScopes(scopes: Scopes, created: Option<Instant>, now: Instant): Plan {
    if Skipped(scopes, created, now) then Skip
    else if IsExcluded(scopes, now) then Act(ScalingUp, GetDownscaleReplicas(scopes))
    else Act(CurrentScaling(scopes, now).scaling, GetDownscaleReplicas(scopes))
  }

  ghost function PlanOf(annotations: Annotations, namespace: string, config: Config, created: Instant,
                        now: Instant): Plan {
    match ParsedScope(annotations, config.formats)
    case None => BadWorkloadScope
    case Some(own) =>
      if namespace !in config.namespaceScopes then NoNamespaceScope
      else
        PlanOfScopes([own, config.namespaceScopes[namespace]] + config.lowerScopes,
                     CreationTime(annotations, config, created), now)
  }

  /** The scopes a workload is decided by, its own first. */
  function ScanScopes(annotations: Annotations, namespace: string, config: Config): Option<Scopes> {
    var own := ParsedScope(annotations, config.formats);
    if own.None? || namespace !in config.namespaceScopes then None
    else Some([own.value, config.namespaceScopes[namespace]] + config.lowerScopes)
  }

  /** What a scan wants of a workload as it is. */
  ghost function WorkloadPlan(workload: Workload, config: Config, created: Instant, now: Instant): Plan
    reads workload
  {
    PlanOf(workload.annotations, workload.metadata.namespace, config, created, now)
  }

  // ----- one workload -----

  /** How a scan ended: which way it left before scaling, or how scaling ended. */
  datatype ScanEnd = LostScope | NoScope | LeftAlone | Attempted(scaling: ScalingKind, report: ScalingReport)

  /** A scan that counts nothing: the namespace scope is missing, or the re-read after a conflict failed. */
  predicate Silent(end: ScanEnd) {
    end.NoScope? || (end.Attempted? && end.report.ending == RegetFailed)
  }

  function CountedScan(before: Tally, end: ScanEnd): (after: Tally)
    ensures after.Outcomes() == before.Outcomes() + if Silent(end) then 0 else 1
  {
    match end
    case LostScope => before.Bump(WorkloadScope)
    case NoScope => before
    case LeftAlone => before.Bump(Excluded)
    case Attempted(scaling, report) => CountedAttempt(before, scaling, report)
  }

  /** What a scan raises. */
  function EndCounter(end: ScanEnd): Option<Counter> {
    match end
    case LostScope => Some(WorkloadScope)
    case NoScope => None
    case LeftAlone => Some(Excluded)
    case Attempted(scaling, report) =>
      (match report.ending
       case Handled => Some(SuccessCounter(scaling))
       case BadScaling => Some(InvalidScaling)
       case OtherError => Some(Generic)
       case OutOfRetries => Some(Conflicts)
       case RegetFailed => None)
  }

  /** What a scan saves. */
  function EndSaving(end: ScanEnd): int {
    if end.Attempted? && end.report.ending == Handled then end.report.saved else 0
  }

  lemma ScanIsCounted(before: Tally, end: ScanEnd)
    ensures var after := CountedScan(before, end);
            && (forall c: Counter :: after.Count(c) == before.Count(c) + if EndCounter(end) == Some(c) then 1 else 0)
            && after.saved == before.saved + EndSaving(end) && after.namespaceScope == before.namespaceScope
            && (end.LostScope? ==> after == before.(workloadScope := before.workloadScope + 1))
            && (end.NoScope? ==> after == before)
            && (end.LeftAlone? ==> after == before.(excluded := before.excluded + 1))
  {
  }

  predicate EndFits(plan: Plan, end: ScanEnd) {
    match plan
    case BadWorkloadScope => end.LostScope?
    case NoNamespaceScope => end.NoScope?
    case Skip => end.LeftAlone?
    case Act(scaling, _) => end.Attempted? && end.scaling == scaling
  }

  /** The plan sends an update when it is carried out on the object. */
  ghost predicate PlanSends(plan: Plan, o: Object) {
    plan.Act? && Acts(plan.scaling, plan.target) && SendsUpdate(DecisionOf(plan.scaling, plan.target), o)
  }

  /** The scan ended as planned, and what it did to the object's trace are the steps of the planned decision. */
  ghost predicate Followed(plan: Plan, end: ScanEnd, before: seq<Step>, after: seq<Step>, i: nat) {
    && EndFits(plan, end)
    && (if plan.Act? then Grew(before, after, i, DecisionOf(plan.scaling, plan.target)) else after == before)
  }

  /** The plan is made with the target that all instances share. */
  predicate PlanShares(plan: Plan, target: Replicas) {
    plan.Act? ==> Shared(DecisionOf(plan.scaling, plan.target), target)
  }

  /** A scan among disciplined others leaves the user's original one scale-up away. */
  lemma ScanKeepsTheOriginal(o: Object, plan: Plan, end: ScanEnd, before: seq<Step>, after: seq<Step>, i: nat,
                             target: Replicas)
    requires Eligible(o, target) && PlanShares(plan, target)
    requires Followed(plan, end, before, after, i) && OthersAllowed(o, before, after, i, target)
    ensures OriginalAtHand(Run(Start(o), after))
  {
    hide Eligible, Run, OthersAllowed, OriginalAtHand, Grew;
    if plan.Act? {
      AttemptKeepsTheOriginal(o, before, after, i, DecisionOf(plan.scaling, plan.target), target);
    } else {
      GrewNothing(after, i, Raise);
      AttemptKeepsTheOriginal(o, before, after, i, Raise, target);
    }
  }

  /** scanWorkload up to its call of attemptScaling. */
  method PlanWorkload(annotations: Annotations, namespace: string, config: Config, created: Instant, now: Instant)
    returns (plan: Plan)
    ensures plan == PlanOf(annotations, namespace, config, created, now)
    ensures plan == BadWorkloadScope <==> ParsedScope(annotations, config.formats).None?
    ensures plan == NoNamespaceScope <==>
            ParsedScope(annotations, config.formats).Some? && namespace !in config.namespaceScopes
  {
    hide ParsedScope, IsExcluded, CurrentScaling;
    var scopeWorkload := GetScopeFromAnnotations(annotations, config.formats);
    if scopeWorkload.None? {
      return BadWorkloadScope;
    }
    if namespace !in config.namespaceScopes {
      return NoNamespaceScope;
    }
    var scopes := [scopeWorkload.value, config.namespaceScopes[namespace]] + config.lowerScopes;
    var grace := IsInGracePeriod(scopes, CreationTime(annotations, config, created), now);
    if grace.None? || grace.value.matched {
      return Skip;
    }
    var exclusion := GetExcludedWithScope(scopes, now);
    var upscaleOnExclusion := GetUpscaleExcluded(scopes);
    if exclusion.matched && !upscaleOnExclusion {
      return Skip;
    }
    if upscaleOnExclusion && exclusion.matched {
      return Act(ScalingUp, GetDownscaleReplicas(scopes));
    }
    var decision := GetCurrentScaling(scopes, now);
    return Act(decision.scaling, GetDownscaleReplicas(scopes));
  }

  /** If the object is eligible for a target that the plan shares, and the others were disciplined, then one
      scale-up gives back what the user last asked for. */
  ghost predicate KeepsOriginal(server: ApiServer, plan: Plan, before: seq<Step>, i: nat)
    reads server
  {
    forall target: Replicas ::
      Eligible(server.origin, target) && PlanShares(plan, target) &&
      OthersAllowed(server.origin, before, server.trace, i, target) ==>
        OriginalAtHand(server.system)
  }

  lemma FollowedKeepsOriginal(server: ApiServer, plan: Plan, end: ScanEnd, before: seq<Step>, i: nat)
    requires server.Valid() && Followed(plan, end, before, server.trace, i)
    ensures KeepsOriginal(server, plan, before, i)
  {
    hide Eligible, PlanShares, OthersAllowed, OriginalAtHand, Run, Followed;
    forall target: Replicas |
      Eligible(server.origin, target) && PlanShares(plan, target) &&
      OthersAllowed(server.origin, before, server.trace, i, target)
      ensures OriginalAtHand(server.system)
    {
      ScanKeepsTheOriginal(server.origin, plan, end, before, server.trace, i, target);
    }
  }

  /** A scan that ended as planned and keeps the original, and whose attempt follows from the world around it. */
  ghost predicate Ended(server: ApiServer, plan: Plan, end: ScanEnd, before: seq<Step>, i: nat, config: Config,
                        world: World)
    reads server
  {
    && server.Valid() && Followed(plan, end, before, server.trace, i) && KeepsOriginal(server, plan, before, i)
    && server.system.history != []
    && (plan.Act? ==>
          AttemptFits(Run(Start(server.origin), before), server.system, i, plan.scaling, plan.target, config.maxRetries,
                      config.dryRun, world, end.report))
  }

  // ----- what a scan does to the object -----

  /** The instance computes no scale-down. */
  ghost predicate NeverLowers(before: seq<Step>, after: seq<Step>, i: nat) {
    forall k :: |before| <= k < |after| ==> !(after[k].Compute? && after[k].i == i && after[k].d.Lower?)
  }

  /** An excluded workload is never scaled down; it is left alone unless excluded workloads are scaled up. */
  ghost predicate RespectsExclusion(scopes: Scopes, now: Instant, before: seq<Step>, after: seq<Step>, i: nat) {
    IsExcluded(scopes, now) ==>
      NeverLowers(before, after, i) && (!GetUpscaleExcluded(scopes) ==> after == before)
  }

  lemma FollowedRespectsExclusion(annotations: Annotations, namespace: string, config: Config, created: Instant,
                                  now: Instant, end: ScanEnd, before: seq<Step>, after: seq<Step>, i: nat)
    requires ScanScopes(annotations, namespace, config).Some?
    requires Followed(PlanOf(annotations, namespace, config, created, now), end, before, after, i)
    ensures RespectsExclusion(ScanScopes(annotations, namespace, config).value, now, before, after, i)
  {
    hide ParsedScope, IsExcluded, CurrentScaling, GraceSkips;
    if IsExcluded(ScanScopes(annotations, namespace, config).value, now) {
      forall k | |before| <= k < |after|
        ensures !(after[k].Compute? && after[k].i == i && after[k].d.Lower?)
      {
        assert OwnStepFits(after[k], i, Raise);
      }
    }
  }

  /** Nobody disturbs the scan, and its copy is the object as it is. */
  ghost predicate Calm(s: System, i: nat, config: Config, world: World)
    requires s.history != []
  {
    && NoFaults(world) && Undisturbed(s, i, world, 0) && s.CopyOf(i).o == s.Current()
    && !config.dryRun && config.maxRetries >= 0
  }

  function Planned(plan: Plan, o: Object): Object {
    if plan.Act? && Acts(plan.scaling, plan.target) then Apply(DecisionOf(plan.scaling, plan.target), o).after else o
  }

  /** What becomes of the object on the server: nothing within the grace period, nothing or a scale-up when it is
      excluded, and otherwise what the schedule says. */
  ghost predicate ScaledBySchedule(scopes: Scopes, created: Option<Instant>, now: Instant, before: Object,
                                   after: Object)
  {
    var scaling := CurrentScaling(scopes, now).scaling;
    var target := GetDownscaleReplicas(scopes);
    var open := !GraceSkips(scopes, created, now);
    && (!open ==> after == before)
    && (IsExcluded(scopes, now) && !GetUpscaleExcluded(scopes) ==> after == before)
    && (open && IsExcluded(scopes, now) && GetUpscaleExcluded(scopes) ==> after == Up(before).after)
    && (open && !IsExcluded(scopes, now) ==>
          && (scaling == ScalingUp ==> after == Up(before).after)
          && (scaling == ScalingDown && target.Some? ==> after == Down(before, target.value).after)
          && (scaling == ScalingDown && target.None? ==> after == before)
          && (scaling != ScalingUp && scaling != ScalingDown ==> after == before))
  }

  lemma PlannedBySchedule(annotations: Annotations, namespace: string, config: Config, created: Instant, now: Instant,
                          o: Object)
    ensures var scopes := ScanScopes(annotations, namespace, config);
            var since := if config.timeAnnotation in annotations
                         then config.formats.timestamp(annotations[config.timeAnnotation]) else Some(created);
            var after := Planned(PlanOf(annotations, namespace, config, created, now), o);
            if scopes.Some? then ScaledBySchedule(scopes.value, since, now, o, after) else after == o
  {
    hide ParsedScope, IsExcluded, CurrentScaling, GraceSkips, Up, Down;
  }

  /** From the annotation to the server: the object of a workload with a downtime, which no force, exclusion or grace
      period overrides, is scaled down while the downtime lasts and up outside of it. */
  lemma DowntimeIsCarriedOut(annotations: Annotations, namespace: string, config: Config, created: Instant,
                             now: Instant, o: Object, target: Replicas)
    requires DowntimeKey in annotations && ForceDowntimeKey !in annotations && ForceUptimeKey !in annotations
    requires ScanScopes(annotations, namespace, config).Some?
    requires NoForce([config.namespaceScopes[namespace]] + config.lowerScopes)
    requires var scopes := ScanScopes(annotations, namespace, config).value;
             && !GraceSkips(scopes, CreationTime(annotations, config, created), now) && !IsExcluded(scopes, now)
             && GetDownscaleReplicas(scopes) == Some(target)
    ensures var defaults := DefaultsOf(ScanScopes(annotations, namespace, config).value);
            var after := Planned(PlanOf(annotations, namespace, config, created, now), o);
            match Hits(annotations, DowntimeKey, config.formats, now, defaults)
            case Some(true) => after == Down(o, target).after
            case Some(false) => after == Up(o).after
            case None => after == o
  {
    hide ParsedScope, IsExcluded, CurrentScaling, GraceSkips, Up, Down, Hits, DefaultsOf, GetDownscaleReplicas, NoForce;
    var lower := [config.namespaceScopes[namespace]] + config.lowerScopes;
    assert WithLower(annotations, config.formats, lower) == ScanScopes(annotations, namespace, config).value;
    ScheduleAnnotationsDecide(annotations, config.formats, lower, now);
    PlannedBySchedule(annotations, namespace, config, created, now, o);
  }

  method ScanWorkload(server: ApiServer, i: nat, workload: Workload, metrics: NamespaceMetrics, config: Config,
                      created: Instant, now: Instant, world: World)
    returns (end: ScanEnd)
    requires server.Valid() && OthersOnly(world, i)
    requires server.system.CopyOf(i) == Clean(workload.version, workload.Contents())
    modifies server, workload, metrics
    ensures var plan := old(WorkloadPlan(workload, config, created, now));
            && Ended(server, plan, end, old(server.trace), i, config, world)
            && (!PlanSends(plan, old(workload.Contents())) ==> !(end.Attempted? && end.report.committed))
    // what it does to the object
    ensures old(server.system).history != [] && server.system.history != []
    ensures var scopes := ScanScopes(old(workload.annotations), workload.metadata.namespace, config);
            scopes.Some? ==> RespectsExclusion(scopes.value, now, old(server.trace), server.trace, i)
    ensures Calm(old(server.system), i, config, world) ==>
              server.system.Current() ==
              Planned(old(WorkloadPlan(workload, config, created, now)), old(server.system.Current()))
    ensures metrics.Counts() == CountedScan(old(metrics.Counts()), end)
    // without its scopes it does nothing, and counts only what is wrong with the workload itself
    ensures ParsedScope(old(workload.annotations), config.formats).None? ==>
              && server.trace == old(server.trace)
              && metrics.Counts() == old(metrics.Counts()).(workloadScope := old(metrics.Counts()).workloadScope + 1)
    ensures ParsedScope(old(workload.annotations), config.formats).Some? &&
            workload.metadata.namespace !in config.namespaceScopes ==>
              server.trace == old(server.trace) && metrics.Counts() == old(metrics.Counts())
    ensures !end.Attempted? ==> workload.Contents() == old(workload.Contents())
    ensures |old(server.system.log)| <= |server.system.log|
    ensures OwnWrites(server.system.log, |old(server.system.log)|, i) ==
            if end.Attempted? && end.report.committed then 1 else 0
  {
    hide PlanOf, Apply, Run, Grew, KeepsOriginal, ScanScopes, RespectsExclusion, AttemptFits, Undisturbed, NoFaults;
    ghost var s, annotations := server.system, workload.annotations;
    var plan := PlanWorkload(workload.annotations, workload.metadata.namespace, config, created, now);
    match plan {
      case BadWorkloadScope =>
        metrics.Increment(WorkloadScope);
        end := LostScope;
      case NoNamespaceScope =>
        end := NoScope;
      case Skip =>
        metrics.Increment(Excluded);
        end := LeftAlone;
      case Act(scaling, target) =>
        var report := AttemptScaling(server, i, scaling, target, workload, metrics, config.maxRetries, config.dryRun,
                                     world);
        end := Attempted(scaling, report);
        if Calm(s, i, config, world) {
          CalmAttempt(s, server.system, i, scaling, target, config.maxRetries, world, report);
        }
    }
    if ScanScopes(annotations, workload.metadata.namespace, config).Some? {
      FollowedRespectsExclusion(annotations, workload.metadata.namespace, config, created, now, end,
                                old(server.trace), server.trace, i);
    }
    FollowedKeepsOriginal(server, plan, end, old(server.trace), i);
  }

  // ----- a cycle -----

  function MetadataOf(workloads: seq<Workload>): (ms: seq<Metadata>)
    ensures |ms| == |workloads| && forall j :: 0 <= j < |ms| ==> ms[j] == workloads[j].metadata
  {
    seq(|workloads|, j requires 0 <= j < |workloads| => workloads[j].metadata)
  }

  /** How many of the workloads are in the namespace. */
  function InNamespace(ms: seq<Metadata>, namespace: string, n: nat): nat
    requires n <= |ms|
  {
    if n == 0 then 0 else InNamespace(ms, namespace, n - 1) + if ms[n - 1].namespace == namespace then 1 else 0
  }

  /** How many of the indices are of workloads in the namespace. */
  function IndicesIn(ms: seq<Metadata>, namespace: string, indices: seq<nat>): nat
    requires InRange(indices, |ms|)
  {
    if indices == [] then 0
    else
      var last := indices[|indices| - 1];
      IndicesIn(ms, namespace, indices[..|indices| - 1]) + if ms[last].namespace == namespace then 1 else 0
  }

  /** How many of the scans in the namespace were silent. */
  function SilentIn(ms: seq<Metadata>, namespace: string, indices: seq<nat>, ends: seq<ScanEnd>): nat
    requires |ends| == |indices| && InRange(indices, |ms|)
  {
    if indices == [] then 0
    else
      var k := |indices| - 1;
      SilentIn(ms, namespace, indices[..k], ends[..k]) +
      if ms[indices[k]].namespace == namespace && Silent(ends[k]) then 1 else 0
  }

  /** How many of the scans in the namespace raised the counter. */
  function CountIn(ms: seq<Metadata>, namespace: string, indices: seq<nat>, ends: seq<ScanEnd>, c: Counter): nat
    requires |ends| == |indices| && InRange(indices, |ms|)
  {
    if indices == [] then 0
    else
      var k := |indices| - 1;
      CountIn(ms, namespace, indices[..k], ends[..k], c) +
      if ms[indices[k]].namespace == namespace && EndCounter(ends[k]) == Some(c) then 1 else 0
  }

  /** What the scans in the namespace saved. */
  function SavedIn(ms: seq<Metadata>, namespace: string, indices: seq<nat>, ends: seq<ScanEnd>): int
    requires |ends| == |indices| && InRange(indices, |ms|)
  {
    if indices == [] then 0
    else
      var k := |indices| - 1;
      SavedIn(ms, namespace, indices[..k], ends[..k]) +
      if ms[indices[k]].namespace == namespace then EndSaving(ends[k]) else 0
  }

  /** The counters of the namespace after the scans, one after another. */
  function TallyAfter(start: Tally, ms: seq<Metadata>, namespace: string, indices: seq<nat>,
                      ends: seq<ScanEnd>): Tally
    requires |ends| == |indices| && InRange(indices, |ms|)
  {
    if indices == [] then start
    else
      var k := |indices| - 1;
      var before := TallyAfter(start, ms, namespace, indices[..k], ends[..k]);
      if ms[indices[k]].namespace == namespace then CountedScan(before, ends[k]) else before
  }

  /** Each counter has risen by the scans that raise it, and their sum by the scans that are not silent. */
  lemma {:induction false} TallyCounts(start: Tally, ms: seq<Metadata>, namespace: string, indices: seq<nat>,
                                       ends: seq<ScanEnd>)
    requires |ends| == |indices| && InRange(indices, |ms|)
    ensures var after := TallyAfter(start, ms, namespace, indices, ends);
            && after.Outcomes() + SilentIn(ms, namespace, indices, ends) ==
               start.Outcomes() + IndicesIn(ms, namespace, indices)
            && (forall c: Counter :: after.Count(c) == start.Count(c) + CountIn(ms, namespace, indices, ends, c))
            && after.saved == start.saved + SavedIn(ms, namespace, indices, ends)
            && after.namespaceScope == start.namespaceScope
  {
    hide CountedScan, EndCounter, EndSaving, Silent, Tally.Count, Tally.Outcomes;
    if indices == [] {
    } else {
      var k := |indices| - 1;
      TallyCounts(start, ms, namespace, indices[..k], ends[..k]);
      ScanIsCounted(TallyAfter(start, ms, namespace, indices[..k], ends[..k]), ends[k]);
    }
  }

  lemma {:induction false} KeptAndDropped(ms: seq<Metadata>, filters: Filters, namespace: string, n: nat)
    requires n <= |ms|
    ensures IndicesIn(ms, namespace, KeptIndices(ms, filters, n)) + Dropped(ms, filters, namespace, n) ==
            InNamespace(ms, namespace, n)
  {
    hide Kept;
    if n == 0 {
    } else {
      KeptAndDropped(ms, filters, namespace, n - 1);
      var before := KeptIndices(ms, filters, n - 1);
      if Kept(ms[n - 1], ms, filters) {
        assert (before + [n - 1])[..|before|] == before;
      }
    }
  }

  lemma {:induction false} IndicesAdd(ms: seq<Metadata>, namespace: string, a: seq<nat>, b: seq<nat>)
    requires InRange(a, |ms|) && InRange(b, |ms|)
    ensures IndicesIn(ms, namespace, a + b) == IndicesIn(ms, namespace, a) + IndicesIn(ms, namespace, b)
  {
    if b == [] {
      assert a + b == a;
    } else {
      var k := |b| - 1;
      assert (a + b)[..|a + b| - 1] == a + b[..k];
      IndicesAdd(ms, namespace, a, b[..k]);
    }
  }

  lemma TakeOut(s: seq<nat>, m: nat)
    requires m < |s|
    ensures multiset(s) == multiset(s[..m] + s[m + 1..]) + multiset{s[m]}
  {
    assert s == s[..m] + ([s[m]] + s[m + 1..]);
  }

  /** Where the last element of one order stands in another, and that the rest is still the same. */
  lemma TakeOutLast(a: seq<nat>, b: seq<nat>) returns (m: nat)
    requires multiset(a) == multiset(b) && a != []
    ensures m < |b| && b[m] == a[|a| - 1]
    ensures multiset(a[..|a| - 1]) == multiset(b[..m] + b[m + 1..])
  {
    var k := |a| - 1;
    assert a[k] in multiset(a);
    m :| 0 <= m < |b| && b[m] == a[k];
    TakeOut(a, k);
    TakeOut(b, m);
    assert a[..k] + a[k + 1..] == a[..k];
    RestIsSame(multiset(a[..k]), multiset(b[..m] + b[m + 1..]), a[k]);
  }

  lemma RestIsSame(a: multiset<nat>, b: multiset<nat>, x: nat)
    requires a + multiset{x} == b + multiset{x}
    ensures a == b
  {
    assert a == (a + multiset{x}) - multiset{x};
    assert b == (b + multiset{x}) - multiset{x};
  }

  /** The order does not matter. */
  lemma {:induction false} IndicesPermute(ms: seq<Metadata>, namespace: string, a: seq<nat>, b: seq<nat>)
    requires multiset(a) == multiset(b)
    requires InRange(a, |ms|) && InRange(b, |ms|)
    ensures IndicesIn(ms, namespace, a) == IndicesIn(ms, namespace, b)
  {
    if a == [] {
      NoElements(b);
    } else {
      var k := |a| - 1;
      var m := TakeOutLast(a, b);
      LastIndexCounts(ms, namespace, a);
      TakeOutCounts(ms, namespace, b, m);
      hide IndicesIn;
      IndicesPermute(ms, namespace, a[..k], b[..m] + b[m + 1..]);
    }
  }

  lemma NoElements(s: seq<nat>)
    requires multiset(s) == multiset{}
    ensures s == []
  {
    assert |multiset(s)| == |s|;
  }

  lemma LastIndexCounts(ms: seq<Metadata>, namespace: string, s: seq<nat>)
    requires s != [] && InRange(s, |ms|)
    ensures IndicesIn(ms, namespace, s) ==
            IndicesIn(ms, namespace, s[..|s| - 1]) + if ms[s[|s| - 1]].namespace == namespace then 1 else 0
  {
  }

  lemma TakeOutCounts(ms: seq<Metadata>, namespace: string, s: seq<nat>, m: nat)
    requires m < |s| && InRange(s, |ms|)
    ensures IndicesIn(ms, namespace, s) ==
            IndicesIn(ms, namespace, s[..m] + s[m + 1..]) + if ms[s[m]].namespace == namespace then 1 else 0
  {
    var a, b, c := s[..m], [s[m]], s[m + 1..];
    assert s == (a + b) + c;
    assert IndicesIn(ms, namespace, b) == if ms[s[m]].namespace == namespace then 1 else 0 by {
      assert b[..0] == [];
      assert IndicesIn(ms, namespace, []) == 0;
    }
    hide IndicesIn;
    IndicesAdd(ms, namespace, a + b, c);
    IndicesAdd(ms, namespace, a, b);
    IndicesAdd(ms, namespace, a, c);
  }

  /** All workloads of a cycle with the server of each one's object. */
  ghost predicate Ready(workloads: seq<Workload>, servers: seq<ApiServer>, i: nat, j: nat)
    requires j < |workloads| == |servers|
    reads workloads[j], servers[j]
  {
    servers[j].Valid() &&
    servers[j].system.CopyOf(i) == Clean(workloads[j].version, workloads[j].Contents())
  }

  ghost predicate Separate(workloads: seq<Workload>, servers: seq<ApiServer>) {
    |workloads| == |servers| &&
    forall j, k :: 0 <= j < k < |workloads| ==> workloads[j] != workloads[k] && servers[j] != servers[k]
  }

  /** The counters of a namespace after the filter and the marks. */
  ghost function FilteredTally(ms: seq<Metadata>, filters: Filters, ns: string, marked: bool): Tally {
    ZERO.(excluded := Dropped(ms, filters, ns, |ms|), namespaceScope := if marked then 1 else 0)
  }

  /** The counters after the filter, the marks, and the first scans. */
  ghost predicate Conserved(metrics: CycleMetrics, ms: seq<Metadata>, filters: Filters, failed: seq<string>,
                            scanned: seq<nat>, ends: seq<ScanEnd>)
    requires |ends| == |scanned| && InRange(scanned, |ms|)
    reads metrics, metrics.holders.Values
  {
    forall ns: string ::
      metrics.Counts(ns) ==
      TallyAfter(FilteredTally(ms, filters, ns, ns in failed && ns in metrics.holders), ms, ns, scanned, ends)
  }

  /** The counters of a namespace at the end of a cycle: each outcome has been counted as often as a scan ended that
      way, the workloads dropped by the filter are excluded, and with the silent scans every listed workload is
      accounted for. */
  ghost predicate Accounted(t: Tally, ms: seq<Metadata>, filters: Filters, ns: string, marked: bool,
                            scanned: seq<nat>, ends: seq<ScanEnd>)
    requires |ends| == |scanned| && InRange(scanned, |ms|)
  {
    && (forall c: Counter ::
          t.Count(c) ==
          CountIn(ms, ns, scanned, ends, c) + if c.Excluded? then Dropped(ms, filters, ns, |ms|) else 0)
    && t.Outcomes() + SilentIn(ms, ns, scanned, ends) == InNamespace(ms, ns, |ms|)
    && t.saved == SavedIn(ms, ns, scanned, ends)
    && t.namespaceScope == if marked then 1 else 0
  }

  lemma OneMoreScan(start: Tally, ms: seq<Metadata>, ns: string, scanned: seq<nat>, ends: seq<ScanEnd>, j: nat,
                    end: ScanEnd)
    requires |ends| == |scanned| && j < |ms| && InRange(scanned, |ms|)
    ensures TallyAfter(start, ms, ns, scanned + [j], ends + [end]) ==
            var before := TallyAfter(start, ms, ns, scanned, ends);
            if ms[j].namespace == ns then CountedScan(before, end) else before
  {
    assert (scanned + [j])[..|scanned|] == scanned && (ends + [end])[..|ends|] == ends;
  }

  /** One goroutine of the cycle. */
  method ScanOne(workloads: seq<Workload>, servers: seq<ApiServer>, i: nat, j: nat, metrics: CycleMetrics,
                 config: Config, created: Instant, now: Instant, world: World, ghost filters: Filters,
                 ghost failed: seq<string>, ghost scanned: seq<nat>, ghost ends: seq<ScanEnd>)
    returns (end: ScanEnd)
    requires Separate(workloads, servers) && j < |workloads| && Ready(workloads, servers, i, j) && OthersOnly(world, i)
    requires metrics.Valid() && workloads[j].metadata.namespace in metrics.holders
    requires |ends| == |scanned| && InRange(scanned, |workloads|)
    requires Conserved(metrics, MetadataOf(workloads), filters, failed, scanned, ends)
    modifies servers[j], workloads[j], metrics.holders[workloads[j].metadata.namespace]
    ensures Conserved(metrics, MetadataOf(workloads), filters, failed, scanned + [j], ends + [end])
    ensures Ended(servers[j], old(WorkloadPlan(workloads[j], config, created, now)), end, old(servers[j].trace), i,
                  config, world)
  {
    hide WorkloadPlan, OwnWrites, Run, CountedScan, TallyAfter, FilteredTally, Ended;
    var ms := MetadataOf(workloads);
    var namespace := workloads[j].metadata.namespace;
    var holder := metrics.holders[namespace];
    end := ScanWorkload(servers[j], i, workloads[j], holder, config, created, now, world);
    forall ns: string
      ensures var start := FilteredTally(ms, filters, ns, ns in failed && ns in metrics.holders);
              metrics.Counts(ns) == TallyAfter(start, ms, ns, scanned + [j], ends + [end])
    {
      if ns in metrics.holders && ns != namespace { assert metrics.holders[ns] != holder; }
      OneMoreScan(FilteredTally(ms, filters, ns, ns in failed && ns in metrics.holders), ms, ns, scanned, ends, j, end);
    }
  }

  predicate Distinct(indices: seq<nat>) {
    forall k, m :: 0 <= k < m < |indices| ==> indices[k] != indices[m]
  }

  /** The goroutines, in the order they finish. */
  method ScanAll(workloads: seq<Workload>, servers: seq<ApiServer>, i: nat, scanned: seq<nat>, metrics: CycleMetrics,
                 config: Config, created: seq<Instant>, now: Instant, worlds: seq<World>, ghost filters: Filters,
                 ghost failed: seq<string>)
    returns (ends: seq<ScanEnd>)
    requires Separate(workloads, servers) && |created| == |worlds| == |workloads|
    requires InRange(scanned, |workloads|) && Distinct(scanned)
    requires forall j :: 0 <= j < |workloads| ==> Ready(workloads, servers, i, j) && OthersOnly(worlds[j], i)
    requires metrics.Valid() && forall j :: 0 <= j < |workloads| ==> workloads[j].metadata.namespace in metrics.holders
    requires Conserved(metrics, MetadataOf(workloads), filters, failed, [], [])
    modifies set j <- scanned :: workloads[j], set j <- scanned :: servers[j], metrics.holders.Values
    ensures |ends| == |scanned| && Conserved(metrics, MetadataOf(workloads), filters, failed, scanned, ends)
    ensures forall k :: 0 <= k < |scanned| ==>
              Ended(servers[scanned[k]], old(WorkloadPlan(workloads[scanned[k]], config, created[scanned[k]], now)),
                    ends[k], old(servers[scanned[k]].trace), i, config, worlds[scanned[k]])
  {
    hide WorkloadPlan, OwnWrites, Run, Ended, Conserved, Ready, CycleMetrics.Counts, OthersOnly;
    var ms := MetadataOf(workloads);
    ends := [];
    for k := 0 to |scanned|
      invariant |ends| == k && Conserved(metrics, ms, filters, failed, scanned[..k], ends)
      invariant forall m :: k <= m < |scanned| ==>
                  unchanged(workloads[scanned[m]]) && unchanged(servers[scanned[m]])
      invariant forall m :: 0 <= m < k ==>
                  Ended(servers[scanned[m]], old(WorkloadPlan(workloads[scanned[m]], config, created[scanned[m]], now)),
                        ends[m], old(servers[scanned[m]].trace), i, config, worlds[scanned[m]])
    {
      var j := scanned[k];
      ghost var done := scanned[..k];
      assert scanned[..k + 1] == done + [j];
      assert metrics.holders[workloads[j].metadata.namespace] in metrics.holders.Values;
      var end := ScanOne(workloads, servers, i, j, metrics, config, created[j], now, worlds[j], filters, failed, done,
                         ends);
      ends := ends + [end];
    }
    assert scanned[..|scanned|] == scanned;
  }

  /** handleNamespaceScopeParsingErrors: sets the marks of the failed namespaces that have a holder, and changes
      nothing else. */
  method MarkFailedNamespaces(metrics: CycleMetrics, failed: seq<string>)
    requires metrics.Valid()
    modifies metrics.holders.Values
    ensures forall ns: string :: metrics.Counts(ns) ==
              if ns in failed && ns in metrics.holders then old(metrics.Counts(ns)).(namespaceScope := 1)
              else old(metrics.Counts(ns))
  {
    hide NamespaceMetrics.Counts;
    for k := 0 to |failed|
      invariant forall ns: string :: metrics.Counts(ns) ==
                  if ns in failed[..k] && ns in metrics.holders then old(metrics.Counts(ns)).(namespaceScope := 1)
                  else old(metrics.Counts(ns))
    {
      assert failed[..k + 1] == failed[..k] + [failed[k]];
      if failed[k] in metrics.holders {
        assert metrics.holders[failed[k]] in metrics.holders.Values;
        metrics.holders[failed[k]].MarkParsingNamespaceScopeError();
      }
    }
    assert failed[..|failed|] == failed;
  }

  /** The filter's counters with the marks are where the scans start from. */
  method MarkFiltered(metrics: CycleMetrics, failed: seq<string>, ghost ms: seq<Metadata>, ghost filters: Filters)
    requires Tallied(metrics, ms, filters, |ms|)
    modifies metrics.holders.Values
    ensures Conserved(metrics, ms, filters, failed, [], [])
  {
    hide Dropped, NamespaceMetrics.Counts;
    MarkFailedNamespaces(metrics, failed);
  }

  /** The part of a cycle before the goroutines: new metrics, the filter, and the marks. */
  method StartCycle(ms: seq<Metadata>, filters: Filters, failedNamespaces: seq<string>)
    returns (metrics: CycleMetrics, results: seq<nat>)
    ensures fresh(metrics) && metrics.Valid() && fresh(metrics.holders.Values)
    ensures forall j :: 0 <= j < |ms| ==> ms[j].namespace in metrics.holders
    ensures results == KeptIndices(ms, filters, |ms|)
    ensures Conserved(metrics, ms, filters, failedNamespaces, [], [])
  {
    hide Kept, Conserved, KeptIndices, Dropped, CycleMetrics.Counts;
    metrics := new CycleMetrics();
    results := FilterExcluded(ms, filters, metrics);
    MarkFiltered(metrics, failedNamespaces, ms, filters);
  }

  /** One cycle: filter, mark the namespaces whose scope failed, and scan what is kept, in whatever order the
      goroutines finish. `scanned` is that order and `ends` is how each scan ended. */
  method ScanCycle(workloads: seq<Workload>, servers: seq<ApiServer>, i: nat, filters: Filters, config: Config,
                   failedNamespaces: seq<string>, created: seq<Instant>, now: Instant, worlds: seq<World>,
                   goroutines: seq<nat> -> seq<nat>)
    returns (metrics: CycleMetrics, scanned: seq<nat>, ends: seq<ScanEnd>)
    requires Separate(workloads, servers) && |created| == |worlds| == |workloads|
    requires forall j :: 0 <= j < |workloads| ==> Ready(workloads, servers, i, j) && OthersOnly(worlds[j], i)
    requires forall js: seq<nat> :: multiset(goroutines(js)) == multiset(js)
    modifies workloads, servers
    ensures multiset(scanned) == multiset(KeptIndices(MetadataOf(workloads), filters, |workloads|))
    ensures |ends| == |scanned| && InRange(scanned, |workloads|)
    ensures forall k :: 0 <= k < |scanned| ==>
              Ended(servers[scanned[k]], old(WorkloadPlan(workloads[scanned[k]], config, created[scanned[k]], now)),
                    ends[k], old(servers[scanned[k]].trace), i, config, worlds[scanned[k]])
    ensures forall j :: 0 <= j < |workloads| && j !in scanned ==> servers[j].system == old(servers[j].system)
    ensures forall ns: string ::
              Accounted(metrics.Counts(ns), MetadataOf(workloads), filters, ns,
                        ns in failedNamespaces && ns in metrics.holders, scanned, ends)
  {
    hide WorkloadPlan, Run, Kept, Ended, Conserved, Ready, Accounted, KeptIndices;
    var ms := MetadataOf(workloads);
    var results;
    metrics, results := StartCycle(ms, filters, failedNamespaces);
    scanned := goroutines(results);
    ScannedOnce(ms, filters, scanned);
    assert forall j :: 0 <= j < |workloads| ==> workloads[j].metadata.namespace in metrics.holders by {
      assert forall j :: 0 <= j < |workloads| ==> ms[j].namespace in metrics.holders;
    }
    assert forall j :: 0 <= j < |workloads| ==>
             WorkloadPlan(workloads[j], config, created[j], now) ==
               old(WorkloadPlan(workloads[j], config, created[j], now)) &&
             servers[j].trace == old(servers[j].trace);
    ends := ScanAll(workloads, servers, i, scanned, metrics, config, created, now, worlds, filters,
                    failedNamespaces);
    forall ns: string
      ensures Accounted(metrics.Counts(ns), ms, filters, ns, ns in failedNamespaces && ns in metrics.holders, scanned,
                        ends)
    {
      AllAccounted(metrics, ms, filters, failedNamespaces, ns, scanned, ends);
    }
  }

  lemma AllAccounted(metrics: CycleMetrics, ms: seq<Metadata>, filters: Filters, failed: seq<string>, ns: string,
                     scanned: seq<nat>, ends: seq<ScanEnd>)
    requires |ends| == |scanned| && InRange(scanned, |ms|)
    requires multiset(scanned) == multiset(KeptIndices(ms, filters, |ms|))
    requires Conserved(metrics, ms, filters, failed, scanned, ends)
    ensures Accounted(metrics.Counts(ns), ms, filters, ns, ns in failed && ns in metrics.holders, scanned, ends)
  {
    hide Kept, KeptIndices, TallyAfter, FilteredTally, Accounted, CycleMetrics.Counts;
    TallyAccounted(ms, filters, ns, ns in failed && ns in metrics.holders, scanned, ends);
  }

  lemma TallyAccounted(ms: seq<Metadata>, filters: Filters, ns: string, marked: bool, scanned: seq<nat>,
                       ends: seq<ScanEnd>)
    requires |ends| == |scanned| && InRange(scanned, |ms|)
    requires multiset(scanned) == multiset(KeptIndices(ms, filters, |ms|))
    ensures var t := TallyAfter(FilteredTally(ms, filters, ns, marked), ms, ns, scanned, ends);
            Accounted(t, ms, filters, ns, marked, scanned, ends)
  {
    hide KeptIndices, Dropped, TallyAfter, SilentIn, IndicesIn, InNamespace, CountIn, SavedIn, Tally.Count,
         Tally.Outcomes, FilteredTally;
    KeptAndDropped(ms, filters, ns, |ms|);
    IndicesPermute(ms, ns, scanned, KeptIndices(ms, filters, |ms|));
    FilterIsCounted(ms, filters, ns, marked);
    TallyCounts(FilteredTally(ms, filters, ns, marked), ms, ns, scanned, ends);
  }

  lemma FilterIsCounted(ms: seq<Metadata>, filters: Filters, ns: string, marked: bool)
    ensures var t, dropped := FilteredTally(ms, filters, ns, marked), Dropped(ms, filters, ns, |ms|);
            && (forall c: Counter :: t.Count(c) == if c.Excluded? then dropped else 0)
            && t.Outcomes() == dropped && t.saved == 0 && t.namespaceScope == if marked then 1 else 0
  {
    hide Dropped;
  }

  /** Any order of the kept workloads scans each of them once. */
  lemma ScannedOnce(ms: seq<Metadata>, filters: Filters, scanned: seq<nat>)
    requires multiset(scanned) == multiset(KeptIndices(ms, filters, |ms|))
    ensures InRange(scanned, |ms|)
    ensures Distinct(scanned)
  {
    hide Kept;
    var kept := KeptIndices(ms, filters, |ms|);
    KeptInOrder(ms, filters, |ms|);
    forall k | 0 <= k < |scanned| ensures scanned[k] < |ms| {
      assert scanned[k] in multiset(scanned) && scanned[k] in multiset(kept);
    }
    DistinctIffOnce(kept);
    DistinctIffOnce(scanned);
  }

  lemma {:induction false} DistinctIffOnce(s: seq<nat>)
    ensures Distinct(s) <==> forall x: nat :: multiset(s)[x] <= 1
  {
    if s == [] {
    } else {
      var n := |s| - 1;
      var front: seq<nat> := s[..n];
      var last: nat := s[n];
      assert s == front + [last];
      DistinctIffOnce(front);
      assert multiset(s) == multiset(front) + multiset{last};
      if forall x: nat :: multiset(s)[x] <= 1 {
        forall x: nat ensures multiset(front)[x] <= 1 { assert multiset(s)[x] <= 1; }
        assert multiset(s)[last] <= 1;
        assert last !in front;
      }
      if Distinct(s) {
        assert last !in front;
        forall x: nat ensures multiset(s)[x] <= 1 { assert multiset(front)[x] <= 1; }
      }
    }
  }
}
