/** Which listed workloads are scanned (`internal/pkg/scalable/util.go`), for the controller's list of all
    workloads and for the webhook's list of one. */
module Filter {
  import opened Wrappers
  import opened Metadata
  import opened Metrics

  /** Include and exclude lists; a regular expression list is the set of texts it matches. None is a list that
      is not configured. */
  datatype Filters = Filters(
    includeLabels: Option<string -> bool>,
    excludeNamespaces: Option<string -> bool>,
    excludeWorkloads: Option<string -> bool>)

  datatype Identifier = Identifier(group: string, version: string, kind: string, name: string, namespace: string)

  // ----- what a ScaledObject scales -----

  function IndexOfSlash(s: string): (i: nat)
    ensures i <= |s| && (i < |s| ==> s[i] == '/') && forall k :: 0 <= k < i ==> s[k] != '/'
  {
    if s == [] || s[0] == '/' then 0 else 1 + IndexOfSlash(s[1..])
  }

  /** The identifier of a ScaledObject's target: apps/v1 Deployment by default; an apiVersion without a slash is
      a version of the core group. */
  function TargetOf(w: Metadata): (id: Identifier)
    requires w.scaleTarget.Some?
    ensures id.namespace == w.namespace && id.name == w.scaleTarget.value.name
  {
    var ref := w.scaleTarget.value;
    var apiVersion := if ref.apiVersion == "" then "apps/v1" else ref.apiVersion;
    var kind := if ref.kind == "" then "Deployment" else ref.kind;
    var slash := IndexOfSlash(apiVersion);
    if slash == |apiVersion| then Identifier("", apiVersion, kind, ref.name, w.namespace)
    else Identifier(apiVersion[..slash], apiVersion[slash + 1..], kind, ref.name, w.namespace)
  }

  /** What the code points from 128 up fold to: the Kelvin sign to k, the long s to s, and so on. Left open: every
      result below holds for whatever folding this is. */
  const NON_ASCII_FOLDS: map<char, char>

  function FoldChar(c: char): char {
    if 'A' <= c <= 'Z' then c + 32 as char
    else if c >= 128 as char && c in NON_ASCII_FOLDS then NON_ASCII_FOLDS[c]
    else c
  }

  /** Two texts are equal under `strings.EqualFold` when they fold to the same. */
  function FoldCase(s: string): string {
    seq(|s|, i requires 0 <= i < |s| => FoldChar(s[i]))
  }

  /** An empty side matches anything. */
  predicate MatchesField(expected: string, actual: string, ignoreCase: bool) {
    expected == "" || actual == "" ||
    (if ignoreCase then FoldCase(expected) == FoldCase(actual) else expected == actual)
  }

  /** The version is no part of a resource's identity. */
  predicate MatchesIdentifier(id: Identifier, w: Metadata) {
    id.name == w.name && id.namespace == w.namespace &&
    MatchesField(id.group, w.gvk.group, false) && MatchesField(id.kind, w.gvk.kind, true)
  }

  /** Workload w is the target of the ScaledObject s. */
  predicate Scales(s: Metadata, w: Metadata) {
    s.scaleTarget.Some? && MatchesIdentifier(TargetOf(s), w)
  }

  ghost predicate ScaledByAny(w: Metadata, workloads: seq<Metadata>) {
    exists i :: 0 <= i < |workloads| && Scales(workloads[i], w)
  }

  lemma ScaledByAnySplits(w: Metadata, a: seq<Metadata>, b: seq<Metadata>)
    ensures ScaledByAny(w, a + b) <==> ScaledByAny(w, a) || ScaledByAny(w, b)
  {
    if i :| 0 <= i < |a| && Scales(a[i], w) { assert Scales((a + b)[i], w); }
    if i :| 0 <= i < |b| && Scales(b[i], w) { assert Scales((a + b)[|a| + i], w); }
    if i :| 0 <= i < |a + b| && Scales((a + b)[i], w) {
      if i < |a| { assert Scales(a[i], w); } else { assert Scales(b[i - |a|], w); }
    }
  }

  ghost predicate MatchedByAny(w: Metadata, ids: seq<Identifier>) {
    exists k :: 0 <= k < |ids| && MatchesIdentifier(ids[k], w)
  }

  /** The targets of the first n workloads, those that are ScaledObjects. */
  function Targets(workloads: seq<Metadata>, n: nat): seq<Identifier>
    requires n <= |workloads|
  {
    if n == 0 then []
    else Targets(workloads, n - 1) + if workloads[n - 1].scaleTarget.Some? then [TargetOf(workloads[n - 1])] else []
  }

  lemma {:induction false} TargetsScale(workloads: seq<Metadata>, n: nat, w: Metadata)
    requires n <= |workloads|
    ensures MatchedByAny(w, Targets(workloads, n)) <==> ScaledByAny(w, workloads[..n])
  {
    hide TargetOf, MatchesIdentifier;
    if n == 0 {
    } else {
      TargetsScale(workloads, n - 1, w);
      var last := workloads[n - 1];
      assert workloads[..n] == workloads[..n - 1] + [last];
      ScaledByAnySplits(w, workloads[..n - 1], [last]);
      assert ScaledByAny(w, [last]) <==> Scales([last][0], w);
      var before, added := Targets(workloads, n - 1), if last.scaleTarget.Some? then [TargetOf(last)] else [];
      if k :| 0 <= k < |before + added| && MatchesIdentifier((before + added)[k], w) {
        if k < |before| {
          assert MatchesIdentifier(before[k], w);
        } else {
          assert MatchesIdentifier(added[k - |before|], w);
        }
      }
      if k :| 0 <= k < |before| && MatchesIdentifier(before[k], w) { assert MatchesIdentifier((before + added)[k], w); }
      if Scales(last, w) { assert MatchesIdentifier((before + added)[|before|], w); }
    }
  }

  method GetExternallyScaled(workloads: seq<Metadata>) returns (ids: seq<Identifier>)
    ensures forall w: Metadata :: MatchedByAny(w, ids) <==> ScaledByAny(w, workloads)
  {
    hide TargetOf, MatchedByAny, ScaledByAny;
    ids := [];
    for i := 0 to |workloads|
      invariant ids == Targets(workloads, i)
    {
      if workloads[i].scaleTarget.None? {
        continue;
      }
      ids := ids + [TargetOf(workloads[i])];
    }
    forall w: Metadata ensures MatchedByAny(w, ids) <==> ScaledByAny(w, workloads) {
      TargetsScale(workloads, |workloads|, w);
      assert workloads[..|workloads|] == workloads;
    }
  }

  method IsExternallyScaled(w: Metadata, ids: seq<Identifier>) returns (scaled: bool)
    ensures scaled <==> MatchedByAny(w, ids)
  {
    for k := 0 to |ids|
      invariant forall j :: 0 <= j < k ==> !MatchesIdentifier(ids[j], w)
    {
      if !MatchesIdentifier(ids[k], w) {
        continue;
      }
      return true;
    }
    return false;
  }

  /** The webhook's question about the ScaledObjects of one namespace. */
  method IsWorkloadExternallyManaged(w: Metadata, managers: seq<Metadata>) returns (managed: bool)
    ensures managed <==> ScaledByAny(w, managers)
  {
    var ids := GetExternallyScaled(managers);
    managed := IsExternallyScaled(w, ids);
  }

  // ----- the other filters -----

  const SUPPORTED_OWNERS: set<string> := {
    "AdvancedCronJob", "AdvancedDaemonSet", "AutoscalingRunnerSet", "BroadcastJob", "CloneSet", "CronJob", "DaemonSet",
    "Deployment", "Gateway", "HorizontalPodAutoscaler", "Ingress", "Job", "KafkaBridge", "KafkaConnect",
    "KafkaMirrorMaker2", "PodDisruptionBudget", "postgresql", "Prometheus", "Rollout", "ScaledObject", "Service",
    "Stack", "StatefulSet"}

  predicate ManagedByOwner(w: Metadata) {
    exists owner <- w.owners :: owner.controller && owner.kind in SUPPORTED_OWNERS
  }

  predicate MatchesLabels(w: Metadata, filters: Filters) {
    filters.includeLabels.None? ||
    exists name <- w.labels :: filters.includeLabels.value(name + "=" + w.labels[name])
  }

  predicate NamespaceExcluded(w: Metadata, filters: Filters) {
    filters.excludeNamespaces.Some? && filters.excludeNamespaces.value(w.namespace)
  }

  predicate WorkloadExcluded(w: Metadata, filters: Filters) {
    ManagedByOwner(w) || (filters.excludeWorkloads.Some? && filters.excludeWorkloads.value(w.name))
  }

  /** Passes every filter that looks at the workload alone. */
  predicate Passes(w: Metadata, filters: Filters) {
    MatchesLabels(w, filters) && !NamespaceExcluded(w, filters) && !WorkloadExcluded(w, filters)
  }

  ghost predicate Kept(w: Metadata, workloads: seq<Metadata>, filters: Filters) {
    Passes(w, filters) && !ScaledByAny(w, workloads)
  }

  predicate InRange(indices: seq<nat>, n: nat) {
    forall k :: 0 <= k < |indices| ==> indices[k] < n
  }

  /** The indices of the kept ones among the first n workloads. */
  ghost function KeptIndices(workloads: seq<Metadata>, filters: Filters, n: nat): (kept: seq<nat>)
    requires n <= |workloads|
    ensures InRange(kept, n)
  {
    if n == 0 then []
    else
      var before := KeptIndices(workloads, filters, n - 1);
      if Kept(workloads[n - 1], workloads, filters) then before + [n - 1] else before
  }

  /** They are in the order of the list, none is there twice, and they are exactly the kept ones. */
  lemma {:induction false} KeptInOrder(workloads: seq<Metadata>, filters: Filters, n: nat)
    requires n <= |workloads|
    ensures var kept := KeptIndices(workloads, filters, n);
            && (forall j, k :: 0 <= j < k < |kept| ==> kept[j] < kept[k])
            && (forall i: nat :: i in kept <==> i < n && Kept(workloads[i], workloads, filters))
  {
    hide Kept;
    if n == 0 {
    } else {
      KeptInOrder(workloads, filters, n - 1);
    }
  }

  /** How many of the first n workloads are in the namespace and dropped. */
  ghost function Dropped(workloads: seq<Metadata>, filters: Filters, namespace: string, n: nat): nat
    requires n <= |workloads|
  {
    if n == 0 then 0
    else
      Dropped(workloads, filters, namespace, n - 1) +
      if workloads[n - 1].namespace == namespace && !Kept(workloads[n - 1], workloads, filters) then 1 else 0
  }

  /** One turn of the filter loop. */
  method FilterOne(w: Metadata, filters: Filters, externallyScaled: seq<Identifier>, metrics: CycleMetrics?)
    returns (keep: bool)
    requires metrics != null ==> metrics.Valid() && w.namespace in metrics.holders
    modifies if metrics != null then {metrics.holders[w.namespace]} else {}
    ensures keep <==> Passes(w, filters) && !MatchedByAny(w, externallyScaled)
    ensures metrics != null ==>
              forall ns: string :: metrics.Counts(ns) ==
                if ns == w.namespace && !keep then old(metrics.Counts(ns)).Bump(Excluded) else old(metrics.Counts(ns))
  {
    hide MatchedByAny;
    keep := false;
    if MatchesLabels(w, filters) && !NamespaceExcluded(w, filters) && !WorkloadExcluded(w, filters) {
      var scaled := IsExternallyScaled(w, externallyScaled);
      keep := !scaled;
    }
    if !keep && metrics != null {
      metrics.Increment(w.namespace, Excluded);
    }
  }

  /** After n workloads: every namespace seen has its holder, and the drops are counted as excluded and nothing
      else is. */
  ghost predicate Tallied(metrics: CycleMetrics, workloads: seq<Metadata>, filters: Filters, n: nat)
    requires n <= |workloads|
    reads metrics, metrics.holders.Values
  {
    && metrics.Valid()
    && (forall j :: 0 <= j < n ==> workloads[j].namespace in metrics.holders)
    && (forall ns: string :: metrics.Counts(ns) == ZERO.(excluded := Dropped(workloads, filters, ns, n)))
  }

  method FilterTurn(workloads: seq<Metadata>, filters: Filters, i: nat, externallyScaled: seq<Identifier>,
                    metrics: CycleMetrics)
    returns (keep: bool)
    requires i < |workloads| && Tallied(metrics, workloads, filters, i)
    requires MatchedByAny(workloads[i], externallyScaled) <==> ScaledByAny(workloads[i], workloads)
    modifies metrics, metrics.holders.Values
    ensures Tallied(metrics, workloads, filters, i + 1)
    ensures keep <==> Kept(workloads[i], workloads, filters)
    ensures fresh(metrics.holders.Values - old(metrics.holders.Values))
  {
    hide MatchedByAny, ScaledByAny, Passes, Dropped, Tally.Bump, NamespaceMetrics.Counts;
    var w := workloads[i];
    assert Kept(w, workloads, filters) <==> Passes(w, filters) && !MatchedByAny(w, externallyScaled);
    hide Kept;
    metrics.Register(w.namespace);
    label registered:
    assert metrics.holders[w.namespace] in metrics.holders.Values;
    keep := FilterOne(w, filters, externallyScaled, metrics);
    forall ns: string ensures metrics.Counts(ns) == ZERO.(excluded := Dropped(workloads, filters, ns, i + 1)) {
      assert old@registered(metrics.Counts(ns)) == ZERO.(excluded := Dropped(workloads, filters, ns, i));
      BumpExcluded(ns, workloads, filters, i);
    }
  }

  lemma BumpExcluded(ns: string, workloads: seq<Metadata>, filters: Filters, i: nat)
    requires i < |workloads|
    ensures ZERO.(excluded := Dropped(workloads, filters, ns, i + 1)) ==
            if ns == workloads[i].namespace && !Kept(workloads[i], workloads, filters)
            then ZERO.(excluded := Dropped(workloads, filters, ns, i)).Bump(Excluded)
            else ZERO.(excluded := Dropped(workloads, filters, ns, i))
  {
  }

  /** The result is the subsequence of kept workloads, given by their indices. With metrics on, every
      workload's namespace gets a holder and every dropped workload counts as excluded; the webhook calls it with
      no metrics. */
  method FilterExcluded(workloads: seq<Metadata>, filters: Filters, metrics: CycleMetrics?) returns (results: seq<nat>)
    requires metrics != null ==> metrics.Valid() && metrics.holders == map[]
    modifies metrics
    ensures results == KeptIndices(workloads, filters, |workloads|)
    ensures metrics != null ==> Tallied(metrics, workloads, filters, |workloads|) && fresh(metrics.holders.Values)
  {
    hide MatchedByAny, ScaledByAny, Passes;
    var externallyScaled := GetExternallyScaled(workloads);
    results := [];
    for i := 0 to |workloads|
      invariant results == KeptIndices(workloads, filters, i)
      invariant metrics != null ==> Tallied(metrics, workloads, filters, i) && fresh(metrics.holders.Values)
    {
      var keep;
      if metrics != null {
        keep := FilterTurn(workloads, filters, i, externallyScaled, metrics);
      } else {
        keep := FilterOne(workloads[i], filters, externallyScaled, null);
      }
      if keep {
        results := results + [i];
      }
    }
  }

  // ----- which workloads are kept -----

  /** A listed workload is kept exactly when one of its labels is included, if labels are, its namespace and its name
      are not excluded, no supported controller owns it, and no listed ScaledObject names it. */
  lemma KeptExactly(workloads: seq<Metadata>, filters: Filters, i: nat)
    requires i < |workloads|
    ensures var w := workloads[i];
            i in KeptIndices(workloads, filters, |workloads|) <==>
            && (filters.includeLabels.Some? ==>
                  exists name <- w.labels :: filters.includeLabels.value(name + "=" + w.labels[name]))
            && (filters.excludeNamespaces.Some? ==> !filters.excludeNamespaces.value(w.namespace))
            && (filters.excludeWorkloads.Some? ==> !filters.excludeWorkloads.value(w.name))
            && (forall owner <- w.owners :: owner.controller ==> owner.kind !in SUPPORTED_OWNERS)
            && (forall k :: 0 <= k < |workloads| ==> !Scales(workloads[k], w))
  {
    KeptInOrder(workloads, filters, |workloads|);
  }

  /** Without labels nothing passes a list of included labels; with one included label everything does. */
  lemma LabelFilter(w: Metadata, name: string, value: string, included: string -> bool)
    ensures !MatchesLabels(w.(labels := map[]), Filters(Some(included), None, None))
    ensures included(name + "=" + value) ==>
              MatchesLabels(w.(labels := w.labels[name := value]), Filters(Some(included), None, None))
  {
    var labels := w.labels[name := value];
    assert name in labels && labels[name] == value;
  }

  /** A workload is left to an owner of a supported kind that controls it, and to no other owner. */
  lemma OwnerFilter(w: Metadata, kind: string)
    ensures kind in SUPPORTED_OWNERS <==> ManagedByOwner(w.(owners := [Owner(true, kind)]))
    ensures !ManagedByOwner(w.(owners := [Owner(false, kind)]))
    ensures !ManagedByOwner(w.(owners := []))
  {
    var owned := w.(owners := [Owner(true, kind)]);
    assert Owner(true, kind) in owned.owners;
  }

  /** What a ScaledObject names: by default a Deployment of group apps, otherwise a resource of the group before the
      slash, or of the core group without one. The version does not matter, nor does the case of the kind. */
  lemma ScalesExactly(s: Metadata, w: Metadata, group: string, version: string)
    requires s.scaleTarget.Some?
    requires var apiVersion := s.scaleTarget.value.apiVersion;
             || (apiVersion == "" && group == "apps")
             || (apiVersion == group + "/" + version && '/' !in group)
             || (apiVersion != "" && '/' !in apiVersion && group == "")
    ensures var ref := s.scaleTarget.value;
            Scales(s, w) <==>
            && ref.name == w.name && s.namespace == w.namespace
            && (group == "" || w.gvk.group == "" || group == w.gvk.group)
            && (var kind := if ref.kind == "" then "Deployment" else ref.kind;
                w.gvk.kind == "" || FoldCase(kind) == FoldCase(w.gvk.kind))
  {
    var apiVersion := s.scaleTarget.value.apiVersion;
    if apiVersion == "" {
      assert "apps/v1" == "apps" + "/" + "v1";
      SlashAfter("apps", "v1");
      assert "apps/v1"[..4] == "apps";
    } else if apiVersion == group + "/" + version && '/' !in group {
      SlashAfter(group, version);
      assert apiVersion[..|group|] == group;
    } else {
      NoSlash(apiVersion);
    }
  }

  lemma {:induction false} SlashAfter(group: string, version: string)
    requires '/' !in group
    ensures IndexOfSlash(group + "/" + version) == |group|
  {
    var s := group + "/" + version;
    if group == "" {
      assert s[0] == '/';
    } else {
      assert s[0] == group[0] && group[0] in group;
      assert s[1..] == group[1..] + "/" + version;
      SlashAfter(group[1..], version);
    }
  }

  lemma NoSlash(s: string)
    requires '/' !in s
    ensures IndexOfSlash(s) == |s|
  {
  }

  /** Letters compare without regard to their case. */
  lemma CaseIsFolded(c: char)
    ensures 'a' <= c <= 'z' ==> FoldCase([c]) == FoldCase([c - 32 as char])
  {
  }

  // ----- controller and webhook agree -----

  /** The ScaledObjects of a namespace, as the webhook lists them. */
  function ScaledObjectsOf(workloads: seq<Metadata>, namespace: string): seq<Metadata> {
    if workloads == [] then []
    else
      (if workloads[0].scaleTarget.Some? && workloads[0].namespace == namespace then [workloads[0]] else []) +
      ScaledObjectsOf(workloads[1..], namespace)
  }

  lemma {:induction false} OnlyOwnNamespaceScales(w: Metadata, workloads: seq<Metadata>)
    ensures ScaledByAny(w, workloads) <==> ScaledByAny(w, ScaledObjectsOf(workloads, w.namespace))
  {
    if workloads == [] {
    } else {
      var rest, tail := workloads[1..], ScaledObjectsOf(workloads[1..], w.namespace);
      OnlyOwnNamespaceScales(w, rest);
      ScaledByAnySplits(w, [workloads[0]], rest);
      assert workloads == [workloads[0]] + rest;
      var first := workloads[0];
      var head := if first.scaleTarget.Some? && first.namespace == w.namespace then [first] else [];
      ScaledByAnySplits(w, head, tail);
      assert ScaledByAny(w, [workloads[0]]) <==> ScaledByAny(w, head) by {
        if ScaledByAny(w, [workloads[0]]) { assert Scales([workloads[0]][0], w); assert Scales(head[0], w); }
      }
    }
  }

  /** A listed workload is kept by the controller exactly when the webhook lets it through: it is not managed by
      the ScaledObjects of its own namespace, and it survives the filter as a list of one. */
  lemma WebhookFiltersAlike(workloads: seq<Metadata>, i: nat, filters: Filters)
    requires i < |workloads|
    ensures i in KeptIndices(workloads, filters, |workloads|) <==>
            !ScaledByAny(workloads[i], ScaledObjectsOf(workloads, workloads[i].namespace)) &&
            KeptIndices([workloads[i]], filters, 1) != []
  {
    hide Passes;
    var w := workloads[i];
    OnlyOwnNamespaceScales(w, workloads);
    KeptInOrder(workloads, filters, |workloads|);
    assert KeptIndices([w], filters, 0) == [];
    assert KeptIndices([w], filters, 1) != [] <==> Kept([w][0], [w], filters);
    if ScaledByAny(w, [w]) {
      assert Scales(workloads[i], w);
    }
  }
}
