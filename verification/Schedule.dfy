/** From scopes and an instant to a decision (`internal/pkg/values/scope.go`): which scope says to
    scale down or up, which excludes, and which grants a grace period. */
module Schedule {
  import opened Wrappers
  import opened TimeSpans
  import opened Replicas

  datatype ScalingKind =
    | ScalingNone | ScalingIgnore | ScalingDown | ScalingUp | ScalingMultiple | ScalingIncomplete

  datatype WeekFrame = WeekFrame(weekdayFrom: Option<Weekday>, weekdayTo: Option<Weekday>)

  type SpanList = Option<seq<Span>>

  datatype Scope = Scope(
    downscalePeriod: SpanList,
    downTime: SpanList,
    upscalePeriod: SpanList,
    upTime: SpanList,
    exclude: SpanList,
    excludeUntil: Option<Instant>,
    forceUptime: SpanList,
    forceDowntime: SpanList,
    downscaleReplicas: Option<Replicas>,
    gracePeriod: int,
    scaleChildren: Option<bool>,
    upscaleExcluded: Option<bool>,
    defaultTimezone: Option<Timezone>,
    defaultWeekFrame: Option<WeekFrame>)
  {
    predicate ForceSet() {
      forceDowntime.Some? || forceUptime.Some?
    }

    predicate ScheduleSet() {
      downTime.Some? || upTime.Some? || downscalePeriod.Some? || upscalePeriod.Some?
    }

    predicate GraceSet() {
      gracePeriod != UNSET_GRACE
    }

    predicate WeekdayFromSet() {
      defaultWeekFrame.Some? && defaultWeekFrame.value.weekdayFrom.Some?
    }

    predicate WeekdayToSet() {
      defaultWeekFrame.Some? && defaultWeekFrame.value.weekdayTo.Some?
    }
  }

  /** A grace period of -1ns is "not set". */
  const UNSET_GRACE := -1

  const EMPTY_SCOPE := Scope(None, None, None, None, None, None, None, None, None, UNSET_GRACE, None, None, None, None)

  /** Workload, namespace, command line, environment and defaults, in order of priority. Nothing below
      depends on there being five. */
  type Scopes = seq<Scope>

  datatype ScalingDecision = ScalingDecision(scaling: ScalingKind, scope: Option<nat>)

  datatype ScopeEvaluation = ScopeEvaluation(matched: bool, scope: Option<nat>)

  // ----- defaults -----

  function DefaultTimezone(scopes: Scopes): Option<Timezone> {
    if scopes == [] then None
    else if scopes[0].defaultTimezone.Some? then scopes[0].defaultTimezone
    else DefaultTimezone(scopes[1..])
  }

  function DefaultWeekdayFrom(scopes: Scopes): Option<Weekday> {
    if scopes == [] then None
    else if scopes[0].WeekdayFromSet() then scopes[0].defaultWeekFrame.value.weekdayFrom
    else DefaultWeekdayFrom(scopes[1..])
  }

  function DefaultWeekdayTo(scopes: Scopes): Option<Weekday> {
    if scopes == [] then None
    else if scopes[0].WeekdayToSet() then scopes[0].defaultWeekFrame.value.weekdayTo
    else DefaultWeekdayTo(scopes[1..])
  }

  function DefaultsOf(scopes: Scopes): Defaults {
    Defaults(DefaultTimezone(scopes), DefaultWeekdayFrom(scopes), DefaultWeekdayTo(scopes))
  }

  // ----- one scope -----

  /** getForceScaling */
  function ForceScaling(scope: Scope, now: Instant, defaults: Defaults): ScalingKind {
    match InTimeSpans(scope.forceDowntime, now, defaults)
    case None => ScalingIncomplete
    case Some(forceDowntime) =>
      match InTimeSpans(scope.forceUptime, now, defaults)
      case None => ScalingIncomplete
      case Some(forceUptime) =>
        if forceDowntime && forceUptime then ScalingMultiple
        else if forceDowntime then ScalingDown
        else if forceUptime then ScalingUp
        else if scope.ForceSet() then ScalingIgnore
        else ScalingNone
  }

  /** getScalingFromPeriods */
  function PeriodScaling(scope: Scope, now: Instant, defaults: Defaults): ScalingKind {
    match InTimeSpans(scope.downscalePeriod, now, defaults)
    case None => ScalingIncomplete
    case Some(inDowntime) =>
      match InTimeSpans(scope.upscalePeriod, now, defaults)
      case None => ScalingIncomplete
      case Some(inUptime) =>
        if inUptime && inDowntime then ScalingMultiple
        else if inDowntime then ScalingDown
        else if inUptime then ScalingUp
        else ScalingIgnore
  }

  /** getCurrentScaling of one scope */
  function OwnScaling(scope: Scope, now: Instant, defaults: Defaults): ScalingKind {
    if scope.downTime.Some? then
      match InTimeSpans(scope.downTime, now, defaults)
      case None => ScalingIncomplete
      case Some(inside) => if inside then ScalingDown else ScalingUp
    else if scope.upTime.Some? then
      match InTimeSpans(scope.upTime, now, defaults)
      case None => ScalingIncomplete
      case Some(inside) => if inside then ScalingUp else ScalingDown
    else if scope.downscalePeriod.Some? || scope.upscalePeriod.Some? then PeriodScaling(scope, now, defaults)
    else ScalingNone
  }

  /** Two lists of equal priority: which is looked at first makes no difference. */
  function Contest(down: Option<bool>, up: Option<bool>): ScalingKind {
    match (down, up)
    case (Some(true), Some(true)) => ScalingMultiple
    case (Some(true), Some(false)) => ScalingDown
    case (Some(false), Some(true)) => ScalingUp
    case (Some(false), Some(false)) => ScalingIgnore
    case _ => ScalingIncomplete
  }

  // ----- all scopes -----

  /** Scope i is the first for which p holds. */
  ghost predicate IsFirst(scopes: Scopes, p: Scope -> bool, i: nat) {
    i < |scopes| && p(scopes[i]) && forall j :: 0 <= j < i ==> !p(scopes[j])
  }

  ghost predicate FirstForce(scopes: Scopes, i: nat) {
    IsFirst(scopes, (s: Scope) => s.ForceSet(), i)
  }

  ghost predicate FirstSchedule(scopes: Scopes, i: nat) {
    IsFirst(scopes, (s: Scope) => s.ScheduleSet(), i)
  }

  /** What the first forcing scope makes of its two lists. */
  ghost function Forced(scopes: Scopes, now: Instant, i: nat): ScalingKind
    requires i < |scopes|
  {
    Contest(InTimeSpans(scopes[i].forceDowntime, now, DefaultsOf(scopes)),
            InTimeSpans(scopes[i].forceUptime, now, DefaultsOf(scopes)))
  }

  /** What the first scheduling scope makes of its lists: a downtime decides alone, then an uptime, then
      the two periods. */
  ghost function Scheduled(scopes: Scopes, now: Instant, i: nat): ScalingKind
    requires i < |scopes|
  {
    var defaults := DefaultsOf(scopes);
    var downTime := InTimeSpans(scopes[i].downTime, now, defaults);
    var upTime := InTimeSpans(scopes[i].upTime, now, defaults);
    if scopes[i].downTime.Some? then Contest(downTime, Not(downTime))
    else if scopes[i].upTime.Some? then Contest(Not(upTime), upTime)
    else
      Contest(InTimeSpans(scopes[i].downscalePeriod, now, defaults),
              InTimeSpans(scopes[i].upscalePeriod, now, defaults))
  }

  function Not(b: Option<bool>): Option<bool> {
    if b.Some? then Some(!b.value) else None
  }

  /** The decision as the documentation of the priorities reads: the first scope with a forced time decides
      unless that is inactive; then the first scope with a time or period; an inactive force counts only when
      no scope has a time or period. */
  ghost predicate Decides(scopes: Scopes, now: Instant, d: ScalingDecision) {
    && (forall f :: FirstForce(scopes, f) && Forced(scopes, now, f) != ScalingIgnore ==>
          d == ScalingDecision(Forced(scopes, now, f), Some(f)))
    && (forall f, s :: FirstForce(scopes, f) && Forced(scopes, now, f) == ScalingIgnore && FirstSchedule(scopes, s) ==>
          d == ScalingDecision(Scheduled(scopes, now, s), Some(s)))
    && (forall f :: FirstForce(scopes, f) && Forced(scopes, now, f) == ScalingIgnore && NoSchedule(scopes) ==>
          d == ScalingDecision(ScalingIgnore, Some(f)))
    && (forall s :: NoForce(scopes) && FirstSchedule(scopes, s) ==>
          d == ScalingDecision(Scheduled(scopes, now, s), Some(s)))
    && (NoForce(scopes) && NoSchedule(scopes) ==> d == ScalingDecision(ScalingNone, None))
  }

  ghost predicate NoForce(scopes: Scopes) {
    forall i :: 0 <= i < |scopes| ==> !scopes[i].ForceSet()
  }

  ghost predicate NoSchedule(scopes: Scopes) {
    forall i :: 0 <= i < |scopes| ==> !scopes[i].ScheduleSet()
  }

  lemma ScopeScaling(scopes: Scopes, now: Instant, i: nat)
    requires i < |scopes|
    ensures ForceScaling(scopes[i], now, DefaultsOf(scopes)) ==
            if scopes[i].ForceSet() then Forced(scopes, now, i) else ScalingNone
    ensures OwnScaling(scopes[i], now, DefaultsOf(scopes)) ==
            if scopes[i].ScheduleSet() then Scheduled(scopes, now, i) else ScalingNone
  {
  }

  lemma FirstIsUnique(scopes: Scopes, p: Scope -> bool, i: nat, j: nat)
    requires IsFirst(scopes, p, i) && IsFirst(scopes, p, j)
    ensures i == j
  {
  }

  lemma ForceDecides(scopes: Scopes, now: Instant, f: nat)
    requires FirstForce(scopes, f)
    ensures Forced(scopes, now, f) != ScalingIgnore ==>
              Decides(scopes, now, ScalingDecision(Forced(scopes, now, f), Some(f)))
    ensures Forced(scopes, now, f) == ScalingIgnore && NoSchedule(scopes) ==>
              Decides(scopes, now, ScalingDecision(ScalingIgnore, Some(f)))
  {
  }

  /** No force, or an inactive one. */
  ghost predicate ForceIdle(scopes: Scopes, now: Instant) {
    forall f :: FirstForce(scopes, f) ==> Forced(scopes, now, f) == ScalingIgnore
  }

  lemma ScheduleDecides(scopes: Scopes, now: Instant, s: nat)
    requires FirstSchedule(scopes, s) && ForceIdle(scopes, now)
    ensures Decides(scopes, now, ScalingDecision(Scheduled(scopes, now, s), Some(s)))
  {
  }

  method GetCurrentScaling(scopes: Scopes, now: Instant) returns (decision: ScalingDecision)
    ensures Decides(scopes, now, decision)
    ensures decision == CurrentScaling(scopes, now)
  {
    hide Forced, Scheduled, ForceScaling, OwnScaling, Decides;
    var defaults := DefaultsOf(scopes);
    var result := ScalingDecision(ScalingNone, None);
    for i := 0 to |scopes|
      invariant forall j :: 0 <= j < i ==> !scopes[j].ForceSet()
      invariant result == ScalingDecision(ScalingNone, None)
    {
      ScopeScaling(scopes, now, i);
      var forced := ForceScaling(scopes[i], now, defaults);
      if forced == ScalingNone {
        ContestIsNeverNone(scopes, now, i);
        continue;
      }
      assert FirstForce(scopes, i);
      if forced == ScalingIgnore {
        result := ScalingDecision(forced, Some(i));
        break;
      }
      decision := ScalingDecision(forced, Some(i));
      ForceDecides(scopes, now, i);
      DecisionIsUnique(scopes, now, decision);
      return;
    }
    IdleAfterLoop(scopes, now, result);
    for i := 0 to |scopes|
      invariant forall j :: 0 <= j < i ==> !scopes[j].ScheduleSet()
    {
      ScopeScaling(scopes, now, i);
      var scaling := OwnScaling(scopes[i], now, defaults);
      if scaling == ScalingNone {
        ContestIsNeverNone(scopes, now, i);
        continue;
      }
      assert FirstSchedule(scopes, i);
      decision := ScalingDecision(scaling, Some(i));
      ScheduleDecides(scopes, now, i);
      DecisionIsUnique(scopes, now, decision);
      return;
    }
    decision := result;
    if result.scope.Some? { ForceDecides(scopes, now, result.scope.value); } else { NothingDecides(scopes, now); }
    DecisionIsUnique(scopes, now, decision);
  }

  lemma ContestIsNeverNone(scopes: Scopes, now: Instant, i: nat)
    requires i < |scopes|
    ensures Forced(scopes, now, i) != ScalingNone && Scheduled(scopes, now, i) != ScalingNone
  {
  }

  lemma IdleAfterLoop(scopes: Scopes, now: Instant, result: ScalingDecision)
    requires
      || (result == ScalingDecision(ScalingNone, None) && NoForce(scopes))
      || (result.scope.Some? && FirstForce(scopes, result.scope.value) &&
          Forced(scopes, now, result.scope.value) == ScalingIgnore)
    ensures ForceIdle(scopes, now)
  {
  }

  lemma NothingDecides(scopes: Scopes, now: Instant)
    requires NoForce(scopes) && NoSchedule(scopes)
    ensures Decides(scopes, now, ScalingDecision(ScalingNone, None))
  {
  }

  /** The decision as a function. */
  ghost function CurrentScaling(scopes: Scopes, now: Instant): (d: ScalingDecision)
    ensures Decides(scopes, now, d)
  {
    ADecisionExists(scopes, now);
    var d :| Decides(scopes, now, d);
    d
  }

  lemma ADecisionExists(scopes: Scopes, now: Instant)
    ensures exists d :: Decides(scopes, now, d)
  {
    hide Forced, Scheduled, Decides;
    if NoForce(scopes) && NoSchedule(scopes) {
      NothingDecides(scopes, now);
    } else if NoForce(scopes) {
      var s := FindFirst(scopes, (s: Scope) => s.ScheduleSet());
      ScheduleDecides(scopes, now, s);
    } else {
      var f := FindFirst(scopes, (s: Scope) => s.ForceSet());
      ForceDecides(scopes, now, f);
      if Forced(scopes, now, f) == ScalingIgnore && !NoSchedule(scopes) {
        var s := FindFirst(scopes, (s: Scope) => s.ScheduleSet());
        IdleAfterLoop(scopes, now, ScalingDecision(ScalingIgnore, Some(f)));
        ScheduleDecides(scopes, now, s);
      }
    }
  }

  lemma FindFirst(scopes: Scopes, p: Scope -> bool) returns (i: nat)
    requires exists k :: 0 <= k < |scopes| && p(scopes[k])
    ensures IsFirst(scopes, p, i)
  {
    i := 0;
    while !p(scopes[i])
      invariant i < |scopes| && forall j :: 0 <= j < i ==> !p(scopes[j])
      decreases |scopes| - i
    {
      i := i + 1;
    }
  }

  /** At most one decision fits, so the predicate fixes it. */
  lemma DecisionIsUnique(scopes: Scopes, now: Instant, d: ScalingDecision)
    requires Decides(scopes, now, d)
    ensures d == CurrentScaling(scopes, now)
  {
    if !NoForce(scopes) {
      var f := FindFirst(scopes, (s: Scope) => s.ForceSet());
      assert FirstForce(scopes, f);
    }
    if !NoSchedule(scopes) {
      var s := FindFirst(scopes, (s: Scope) => s.ScheduleSet());
      assert FirstSchedule(scopes, s);
    }
  }

  // ----- priorities -----

  ghost predicate NoneHas(scopes: Scopes, p: Scope -> bool) {
    forall j :: 0 <= j < |scopes| ==> !p(scopes[j])
  }

  /** Scope i is the first with the property exactly when the first scope has it and i is 0, or i - 1 is the first
      of the others. */
  lemma FirstOfRest(scopes: Scopes, p: Scope -> bool, i: nat)
    requires scopes != []
    ensures IsFirst(scopes, p, i) <==> if i == 0 then p(scopes[0]) else !p(scopes[0]) && IsFirst(scopes[1..], p, i - 1)
    ensures NoneHas(scopes, p) <==> !p(scopes[0]) && NoneHas(scopes[1..], p)
  {
    var rest := scopes[1..];
    assert forall j :: 1 <= j < |scopes| ==> scopes[j] == rest[j - 1];
    if NoneHas(scopes, p) {
      forall j | 0 <= j < |rest| ensures !p(rest[j]) { assert rest[j] == scopes[j + 1]; }
    }
    if i > 0 && IsFirst(scopes, p, i) {
      forall j | 0 <= j < i - 1 ensures !p(rest[j]) { assert rest[j] == scopes[j + 1]; }
    }
  }

  /** A scope that sets no list has no say: the decision is that of the scopes below it. */
  lemma SilentScopePassesOn(own: Scope, lower: Scopes, now: Instant)
    requires !own.ForceSet() && !own.ScheduleSet()
    requires DefaultsOf([own] + lower) == DefaultsOf(lower)
    ensures var below := CurrentScaling(lower, now);
            CurrentScaling([own] + lower, now) ==
            ScalingDecision(below.scaling, if below.scope.Some? then Some(below.scope.value + 1) else None)
  {
    hide Forced, Scheduled, Decides;
    var scopes := [own] + lower;
    assert scopes[1..] == lower;
    var below := CurrentScaling(lower, now);
    assert Decides(lower, now, below);
    var d := ScalingDecision(below.scaling, if below.scope.Some? then Some(below.scope.value + 1) else None);
    DecidesBelow(own, lower, now, below);
    DecisionIsUnique(scopes, now, d);
  }

  lemma DecidesBelow(own: Scope, lower: Scopes, now: Instant, below: ScalingDecision)
    requires !own.ForceSet() && !own.ScheduleSet()
    requires DefaultsOf([own] + lower) == DefaultsOf(lower)
    requires Decides(lower, now, below)
    ensures Decides([own] + lower, now,
                    ScalingDecision(below.scaling, if below.scope.Some? then Some(below.scope.value + 1) else None))
  {
    hide DefaultsOf, InSpans, Forced, Scheduled, FirstForce, FirstSchedule, NoForce, NoSchedule;
    var scopes := [own] + lower;
    ForceBelow(own, lower, now);
    ScheduleBelow(own, lower, now);
  }

  lemma ForceBelow(own: Scope, lower: Scopes, now: Instant)
    requires !own.ForceSet() && DefaultsOf([own] + lower) == DefaultsOf(lower)
    ensures NoForce([own] + lower) <==> NoForce(lower)
    ensures forall i: nat :: FirstForce([own] + lower, i) ==>
              0 < i <= |lower| && FirstForce(lower, i - 1) &&
              Forced([own] + lower, now, i) == Forced(lower, now, i - 1)
  {
    hide DefaultsOf, InSpans;
    var scopes := [own] + lower;
    assert scopes[1..] == lower;
    forall i: nat ensures FirstForce(scopes, i) <==> i > 0 && FirstForce(lower, i - 1) {
      FirstOfRest(scopes, (s: Scope) => s.ForceSet(), i);
    }
    if NoForce(scopes) { assert forall i :: 0 <= i < |lower| ==> lower[i] == scopes[i + 1]; }
  }

  lemma ScheduleBelow(own: Scope, lower: Scopes, now: Instant)
    requires !own.ScheduleSet() && DefaultsOf([own] + lower) == DefaultsOf(lower)
    ensures NoSchedule([own] + lower) <==> NoSchedule(lower)
    ensures forall i: nat :: FirstSchedule([own] + lower, i) ==>
              0 < i <= |lower| && FirstSchedule(lower, i - 1) &&
              Scheduled([own] + lower, now, i) == Scheduled(lower, now, i - 1)
  {
    hide DefaultsOf, InSpans;
    var scopes := [own] + lower;
    assert scopes[1..] == lower;
    forall i: nat ensures FirstSchedule(scopes, i) <==> i > 0 && FirstSchedule(lower, i - 1) {
      FirstOfRest(scopes, (s: Scope) => s.ScheduleSet(), i);
    }
    if NoSchedule(scopes) { assert forall i :: 0 <= i < |lower| ==> lower[i] == scopes[i + 1]; }
  }

  /** An inactive force ends the search for forces: what lower scopes force does not matter any more. */
  lemma InactiveForceHidesLower(own: Scope, lower: Scopes, now: Instant)
    requires own.ForceSet() && !own.ScheduleSet() && Forced([own] + lower, now, 0) == ScalingIgnore
    ensures NoSchedule(lower) ==> CurrentScaling([own] + lower, now) == ScalingDecision(ScalingIgnore, Some(0))
    ensures forall s: nat :: FirstSchedule(lower, s) ==>
              CurrentScaling([own] + lower, now) ==
              ScalingDecision(Scheduled([own] + lower, now, s + 1), Some(s + 1))
  {
    hide Forced, Scheduled;
    var scopes := [own] + lower;
    assert scopes[1..] == lower;
    assert FirstForce(scopes, 0);
    forall s: nat | FirstSchedule(lower, s) ensures FirstSchedule(scopes, s + 1) {
      FirstOfRest(scopes, (x: Scope) => x.ScheduleSet(), s + 1);
    }
    if NoSchedule(lower) {
      assert NoSchedule(scopes);
    }
  }

  /** Which lists count as active: "always" and "never" are spans of every scope. */
  lemma ForcedByBooleans(down: bool, up: bool, lower: Scopes, now: Instant)
    ensures var own := EMPTY_SCOPE.(forceDowntime := Some([BooleanSpan(down)]), forceUptime := Some([BooleanSpan(up)]));
            Forced([own] + lower, now, 0) ==
            if down && up then ScalingMultiple
            else if down then ScalingDown
            else if up then ScalingUp
            else ScalingIgnore
  {
    var own := EMPTY_SCOPE.(forceDowntime := Some([BooleanSpan(down)]), forceUptime := Some([BooleanSpan(up)]));
    BooleanList(down, now, DefaultsOf([own] + lower));
    BooleanList(up, now, DefaultsOf([own] + lower));
  }

  lemma BooleanList(active: bool, now: Instant, defaults: Defaults)
    ensures InSpans([BooleanSpan(active)], now, defaults) == Some(active)
  {
    assert [BooleanSpan(active)][1..] == [];
  }

  // ----- what a decision depends on -----

  /** The same lists that decide, and the same defaults. */
  ghost predicate SameLists(a: Scopes, b: Scopes) {
    && |a| == |b| && DefaultsOf(a) == DefaultsOf(b)
    && forall i :: 0 <= i < |a| ==>
         && a[i].forceDowntime == b[i].forceDowntime && a[i].forceUptime == b[i].forceUptime
         && a[i].downTime == b[i].downTime && a[i].upTime == b[i].upTime
         && a[i].downscalePeriod == b[i].downscalePeriod && a[i].upscalePeriod == b[i].upscalePeriod
  }

  lemma SameListsSameDecision(a: Scopes, b: Scopes, now: Instant)
    requires SameLists(a, b)
    ensures CurrentScaling(a, now) == CurrentScaling(b, now)
  {
    hide InSpans;
    var d := CurrentScaling(a, now);
    assert forall i :: FirstForce(b, i) <==> FirstForce(a, i);
    assert forall i :: FirstSchedule(b, i) <==> FirstSchedule(a, i);
    assert NoForce(a) <==> NoForce(b);
    assert NoSchedule(a) <==> NoSchedule(b);
    assert Decides(b, now, d);
    DecisionIsUnique(b, now, d);
  }

  // ----- adding defaults -----

  /** The same scopes but for their defaults, and no default that resolved before resolves differently. */
  ghost predicate OnlyMoreDefaults(before: Scopes, after: Scopes) {
    && |before| == |after|
    && Extends(DefaultsOf(before), DefaultsOf(after))
    && forall i :: 0 <= i < |before| ==>
         after[i] == before[i].(defaultTimezone := after[i].defaultTimezone,
                                defaultWeekFrame := after[i].defaultWeekFrame)
  }

  /** A complete decision does not change when defaults are added. */
  lemma MoreDefaultsSameDecision(before: Scopes, after: Scopes, now: Instant)
    requires OnlyMoreDefaults(before, after)
    requires CurrentScaling(before, now).scaling != ScalingIncomplete
    ensures CurrentScaling(after, now) == CurrentScaling(before, now)
  {
    forall i | 0 <= i < |before|
      ensures Forced(before, now, i) != ScalingIncomplete ==> Forced(after, now, i) == Forced(before, now, i)
      ensures Scheduled(before, now, i) != ScalingIncomplete ==> Scheduled(after, now, i) == Scheduled(before, now, i)
    {
      ListsKeep(before, after, now, i);
    }
    assert forall i :: FirstForce(before, i) <==> FirstForce(after, i);
    assert forall i :: FirstSchedule(before, i) <==> FirstSchedule(after, i);
    assert NoForce(before) <==> NoForce(after);
    assert NoSchedule(before) <==> NoSchedule(after);
    var d := CurrentScaling(before, now);
    if !NoForce(before) {
      var f := FindFirst(before, (s: Scope) => s.ForceSet());
      assert FirstForce(before, f);
    }
    if !NoSchedule(before) {
      var s := FindFirst(before, (s: Scope) => s.ScheduleSet());
      assert FirstSchedule(before, s);
    }
    assert Decides(after, now, d);
    DecisionIsUnique(after, now, d);
  }

  lemma ListsKeep(before: Scopes, after: Scopes, now: Instant, i: nat)
    requires OnlyMoreDefaults(before, after) && i < |before|
    ensures Forced(before, now, i) != ScalingIncomplete ==> Forced(after, now, i) == Forced(before, now, i)
    ensures Scheduled(before, now, i) != ScalingIncomplete ==> Scheduled(after, now, i) == Scheduled(before, now, i)
  {
    var s := before[i];
    ListKeeps(s.forceDowntime, now, DefaultsOf(before), DefaultsOf(after));
    ListKeeps(s.forceUptime, now, DefaultsOf(before), DefaultsOf(after));
    ListKeeps(s.downTime, now, DefaultsOf(before), DefaultsOf(after));
    ListKeeps(s.upTime, now, DefaultsOf(before), DefaultsOf(after));
    ListKeeps(s.downscalePeriod, now, DefaultsOf(before), DefaultsOf(after));
    ListKeeps(s.upscalePeriod, now, DefaultsOf(before), DefaultsOf(after));
  }

  lemma ListKeeps(spans: SpanList, now: Instant, before: Defaults, after: Defaults)
    requires Extends(before, after)
    ensures Keeps(InTimeSpans(spans, now, before), InTimeSpans(spans, now, after))
  {
    if spans.Some? { MoreDefaultsSameAnswer(spans.value, now, before, after); }
  }

  /** Setting a timezone, or a week frame, that no scope resolved before is such an addition. */
  lemma {:induction false} AddedTimezoneResolves(scopes: Scopes, k: nat, zone: Timezone)
    requires k < |scopes| && DefaultTimezone(scopes).None?
    ensures var after := scopes[k := scopes[k].(defaultTimezone := Some(zone))];
            DefaultTimezone(after) == Some(zone) &&
            DefaultWeekdayFrom(after) == DefaultWeekdayFrom(scopes) &&
            DefaultWeekdayTo(after) == DefaultWeekdayTo(scopes)
  {
    var after := scopes[k := scopes[k].(defaultTimezone := Some(zone))];
    if k == 0 {
      assert after[1..] == scopes[1..];
    } else {
      AddedTimezoneResolves(scopes[1..], k - 1, zone);
      assert after[1..] == scopes[1..][k - 1 := scopes[k].(defaultTimezone := Some(zone))];
    }
  }

  lemma {:induction false} AddedWeekFrameResolves(scopes: Scopes, k: nat, from: Weekday, to: Weekday)
    requires k < |scopes| && DefaultWeekdayFrom(scopes).None? && DefaultWeekdayTo(scopes).None?
    ensures var after := scopes[k := scopes[k].(defaultWeekFrame := Some(WeekFrame(Some(from), Some(to))))];
            DefaultTimezone(after) == DefaultTimezone(scopes) &&
            DefaultWeekdayFrom(after) == Some(from) && DefaultWeekdayTo(after) == Some(to)
  {
    var framed := scopes[k].(defaultWeekFrame := Some(WeekFrame(Some(from), Some(to))));
    var after := scopes[k := framed];
    if k == 0 {
      assert after[1..] == scopes[1..];
    } else {
      AddedWeekFrameResolves(scopes[1..], k - 1, from, to);
      assert after[1..] == scopes[1..][k - 1 := framed];
    }
  }

  lemma AddedDefaultKeepsDecision(scopes: Scopes, now: Instant, k: nat, zone: Timezone, from: Weekday, to: Weekday)
    requires k < |scopes| && CurrentScaling(scopes, now).scaling != ScalingIncomplete
    ensures DefaultTimezone(scopes).None? ==>
              CurrentScaling(scopes[k := scopes[k].(defaultTimezone := Some(zone))], now) == CurrentScaling(scopes, now)
    ensures DefaultWeekdayFrom(scopes).None? && DefaultWeekdayTo(scopes).None? ==>
              CurrentScaling(scopes[k := scopes[k].(defaultWeekFrame := Some(WeekFrame(Some(from), Some(to))))], now) ==
              CurrentScaling(scopes, now)
  {
    if DefaultTimezone(scopes).None? {
      AddedTimezoneResolves(scopes, k, zone);
      MoreDefaultsSameDecision(scopes, scopes[k := scopes[k].(defaultTimezone := Some(zone))], now);
    }
    if DefaultWeekdayFrom(scopes).None? && DefaultWeekdayTo(scopes).None? {
      AddedWeekFrameResolves(scopes, k, from, to);
      var framed := scopes[k].(defaultWeekFrame := Some(WeekFrame(Some(from), Some(to))));
      MoreDefaultsSameDecision(scopes, scopes[k := framed], now);
    }
  }

  // ----- the values that the first scope with one provides -----

  function GetDownscaleReplicas(scopes: Scopes): Option<Replicas> {
    if scopes == [] then None
    else if scopes[0].downscaleReplicas.Some? then scopes[0].downscaleReplicas
    else GetDownscaleReplicas(scopes[1..])
  }

  function GetUpscaleExcluded(scopes: Scopes): bool {
    if scopes == [] then false
    else if scopes[0].upscaleExcluded.Some? then scopes[0].upscaleExcluded.value
    else GetUpscaleExcluded(scopes[1..])
  }

  function GetScaleChildren(scopes: Scopes): bool {
    if scopes == [] then false
    else if scopes[0].scaleChildren.Some? then scopes[0].scaleChildren.value
    else GetScaleChildren(scopes[1..])
  }

  /** Every lookup takes the first scope that has a value. Without one the lookups of the downscale replicas and of
      the defaults fail, and upscale-excluded is off. */
  lemma LookupsTakeTheFirst(scopes: Scopes, i: nat)
    ensures IsFirst(scopes, (s: Scope) => s.downscaleReplicas.Some?, i) ==>
              GetDownscaleReplicas(scopes) == scopes[i].downscaleReplicas
    ensures GetDownscaleReplicas(scopes).None? <==> NoneHas(scopes, (s: Scope) => s.downscaleReplicas.Some?)
    ensures IsFirst(scopes, (s: Scope) => s.upscaleExcluded.Some?, i) ==>
              GetUpscaleExcluded(scopes) == scopes[i].upscaleExcluded.value
    ensures NoneHas(scopes, (s: Scope) => s.upscaleExcluded.Some?) ==> !GetUpscaleExcluded(scopes)
    ensures IsFirst(scopes, (s: Scope) => s.defaultTimezone.Some?, i) ==>
              DefaultTimezone(scopes) == scopes[i].defaultTimezone
    ensures DefaultTimezone(scopes).None? <==> NoneHas(scopes, (s: Scope) => s.defaultTimezone.Some?)
    ensures IsFirst(scopes, (s: Scope) => s.WeekdayFromSet(), i) ==>
              DefaultWeekdayFrom(scopes) == scopes[i].defaultWeekFrame.value.weekdayFrom
    ensures DefaultWeekdayFrom(scopes).None? <==> NoneHas(scopes, (s: Scope) => s.WeekdayFromSet())
    ensures IsFirst(scopes, (s: Scope) => s.WeekdayToSet(), i) ==>
              DefaultWeekdayTo(scopes) == scopes[i].defaultWeekFrame.value.weekdayTo
    ensures DefaultWeekdayTo(scopes).None? <==> NoneHas(scopes, (s: Scope) => s.WeekdayToSet())
  {
    SettingsTakeTheFirst(scopes, i);
    DefaultsTakeTheFirst(scopes, i);
  }

  lemma {:induction false} SettingsTakeTheFirst(scopes: Scopes, i: nat)
    ensures IsFirst(scopes, (s: Scope) => s.downscaleReplicas.Some?, i) ==>
              GetDownscaleReplicas(scopes) == scopes[i].downscaleReplicas
    ensures GetDownscaleReplicas(scopes).None? <==> NoneHas(scopes, (s: Scope) => s.downscaleReplicas.Some?)
    ensures IsFirst(scopes, (s: Scope) => s.upscaleExcluded.Some?, i) ==>
              GetUpscaleExcluded(scopes) == scopes[i].upscaleExcluded.value
    ensures NoneHas(scopes, (s: Scope) => s.upscaleExcluded.Some?) ==> !GetUpscaleExcluded(scopes)
  {
    if scopes == [] {
    } else {
      FirstOfRest(scopes, (s: Scope) => s.downscaleReplicas.Some?, i);
      FirstOfRest(scopes, (s: Scope) => s.upscaleExcluded.Some?, i);
      SettingsTakeTheFirst(scopes[1..], if i > 0 then i - 1 else 0);
    }
  }

  lemma {:induction false} DefaultsTakeTheFirst(scopes: Scopes, i: nat)
    ensures IsFirst(scopes, (s: Scope) => s.defaultTimezone.Some?, i) ==>
              DefaultTimezone(scopes) == scopes[i].defaultTimezone
    ensures DefaultTimezone(scopes).None? <==> NoneHas(scopes, (s: Scope) => s.defaultTimezone.Some?)
    ensures IsFirst(scopes, (s: Scope) => s.WeekdayFromSet(), i) ==>
              DefaultWeekdayFrom(scopes) == scopes[i].defaultWeekFrame.value.weekdayFrom
    ensures DefaultWeekdayFrom(scopes).None? <==> NoneHas(scopes, (s: Scope) => s.WeekdayFromSet())
    ensures IsFirst(scopes, (s: Scope) => s.WeekdayToSet(), i) ==>
              DefaultWeekdayTo(scopes) == scopes[i].defaultWeekFrame.value.weekdayTo
    ensures DefaultWeekdayTo(scopes).None? <==> NoneHas(scopes, (s: Scope) => s.WeekdayToSet())
  {
    if scopes == [] {
    } else {
      FirstOfRest(scopes, (s: Scope) => s.defaultTimezone.Some?, i);
      FirstOfRest(scopes, (s: Scope) => s.WeekdayFromSet(), i);
      FirstOfRest(scopes, (s: Scope) => s.WeekdayToSet(), i);
      DefaultsTakeTheFirst(scopes[1..], if i > 0 then i - 1 else 0);
    }
  }

  // ----- exclusion -----

  ghost predicate FirstExclude(scopes: Scopes, i: nat) {
    IsFirst(scopes, (s: Scope) => s.exclude.Some?, i)
  }

  predicate FutureUntil(scope: Scope, now: Instant) {
    scope.excludeUntil.Some? && scope.excludeUntil.value > now
  }

  /** Some scope's exclude-until lies ahead. */
  ghost predicate ExcludedUntil(scopes: Scopes, now: Instant) {
    exists i :: 0 <= i < |scopes| && FutureUntil(scopes[i], now)
  }

  /** The first scope with an exclude list decides if the list applies or fails; a failure means "not
      excluded". Otherwise any exclude-until ahead excludes. */
  ghost predicate IsExcluded(scopes: Scopes, now: Instant) {
    if exists i: nat ::
         FirstExclude(scopes, i) && InTimeSpans(scopes[i].exclude, now, DefaultsOf(scopes)) != Some(false) then
      exists i: nat :: FirstExclude(scopes, i) && InTimeSpans(scopes[i].exclude, now, DefaultsOf(scopes)) == Some(true)
    else ExcludedUntil(scopes, now)
  }

  method GetExcludedWithScope(scopes: Scopes, now: Instant) returns (r: ScopeEvaluation)
    ensures r.matched <==> IsExcluded(scopes, now)
    ensures r.matched <==> r.scope.Some?
    ensures r.matched ==>
              || (FirstExclude(scopes, r.scope.value) &&
                  InTimeSpans(scopes[r.scope.value].exclude, now, DefaultsOf(scopes)) == Some(true))
              || IsFirst(scopes, (s: Scope) => FutureUntil(s, now), r.scope.value)
  {
    for i := 0 to |scopes|
      invariant forall j :: 0 <= j < i ==> scopes[j].exclude.None?
    {
      if scopes[i].exclude.None? {
        continue;
      }
      assert FirstExclude(scopes, i);
      forall j: nat | FirstExclude(scopes, j) ensures j == i {
        FirstIsUnique(scopes, (s: Scope) => s.exclude.Some?, i, j);
      }
      var exclude := CheckTimeSpans(scopes[i].exclude, now, DefaultsOf(scopes));
      if exclude.None? {
        return ScopeEvaluation(false, None);
      }
      if exclude.value {
        return ScopeEvaluation(true, Some(i));
      }
      break;
    }
    for i := 0 to |scopes|
      invariant forall j :: 0 <= j < i ==> !FutureUntil(scopes[j], now)
    {
      if scopes[i].excludeUntil.None? {
        continue;
      }
      if scopes[i].excludeUntil.value <= now {
        continue;
      }
      return ScopeEvaluation(true, Some(i));
    }
    return ScopeEvaluation(false, None);
  }

  // ----- the grace period -----

  ghost predicate FirstGrace(scopes: Scopes, i: nat) {
    IsFirst(scopes, (s: Scope) => s.GraceSet(), i)
  }

  /** Within the grace period of the first scope that has one. */
  ghost predicate InGrace(scopes: Scopes, created: Instant, now: Instant) {
    exists i: nat :: FirstGrace(scopes, i) && now < created + scopes[i].gracePeriod
  }

  /** `created` is None when the creation-time annotation does not parse; it is not looked at when no scope
      sets a grace period. A None result is the error return. */
  method IsInGracePeriod(scopes: Scopes, created: Option<Instant>, now: Instant) returns (r: Option<ScopeEvaluation>)
    ensures r.None? <==> created.None? && exists i: nat :: FirstGrace(scopes, i)
    ensures r.Some? ==> (r.value.matched <==> created.Some? && InGrace(scopes, created.value, now))
    ensures r.Some? && r.value.scope.Some? ==> FirstGrace(scopes, r.value.scope.value)
  {
    var gracePeriod := UNSET_GRACE;
    var gracePeriodScope: Option<nat> := None;
    for i := 0 to |scopes|
      invariant forall j :: 0 <= j < i ==> !scopes[j].GraceSet()
      invariant gracePeriod == UNSET_GRACE && gracePeriodScope == None
    {
      if scopes[i].gracePeriod == UNSET_GRACE {
        continue;
      }
      gracePeriod := scopes[i].gracePeriod;
      gracePeriodScope := Some(i);
      assert FirstGrace(scopes, i);
      forall j: nat | FirstGrace(scopes, j) ensures j == i {
        FirstIsUnique(scopes, (s: Scope) => s.GraceSet(), i, j);
      }
      break;
    }
    if gracePeriod == UNSET_GRACE {
      return Some(ScopeEvaluation(false, None));
    }
    if created.None? {
      return None;
    }
    return Some(ScopeEvaluation(now < created.value + gracePeriod, gracePeriodScope));
  }

  // ----- skips expire -----

  lemma SkipsOnlyTurnOff(scopes: Scopes, created: Instant, earlier: Instant, later: Instant)
    requires earlier <= later
    ensures InGrace(scopes, created, later) ==> InGrace(scopes, created, earlier)
    ensures ExcludedUntil(scopes, later) ==> ExcludedUntil(scopes, earlier)
  {
  }

  /** Over any non-decreasing instants a skip is on for a prefix and off for good after it. */
  lemma SkipsExpire(scopes: Scopes, created: Instant, instants: seq<Instant>) returns (graceEnds: nat, untilEnds: nat)
    requires forall i, j :: 0 <= i < j < |instants| ==> instants[i] <= instants[j]
    ensures graceEnds <= |instants| && untilEnds <= |instants|
    ensures forall i :: 0 <= i < |instants| ==> (InGrace(scopes, created, instants[i]) <==> i < graceEnds)
    ensures forall i :: 0 <= i < |instants| ==> (ExcludedUntil(scopes, instants[i]) <==> i < untilEnds)
  {
    if instants == [] {
      graceEnds, untilEnds := 0, 0;
    } else {
      var n := |instants| - 1;
      graceEnds, untilEnds := SkipsExpire(scopes, created, instants[..n]);
      forall i | 0 <= i < n
        ensures InGrace(scopes, created, instants[n]) ==> InGrace(scopes, created, instants[i])
        ensures ExcludedUntil(scopes, instants[n]) ==> ExcludedUntil(scopes, instants[i])
      {
        SkipsOnlyTurnOff(scopes, created, instants[i], instants[n]);
      }
      assert forall i :: 0 <= i < n ==> instants[..n][i] == instants[i];
      if InGrace(scopes, created, instants[n]) { graceEnds := n + 1; }
      if ExcludedUntil(scopes, instants[n]) { untilEnds := n + 1; }
    }
  }
}
