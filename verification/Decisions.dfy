/** From the text of an annotation to what is done: which decision each of the twelve scope annotations of a workload
    takes part in, and that it takes part in no other. */
module Decisions {
  import opened Wrappers
  import opened Replicas
  import opened Annotations
  import opened TimeSpans
  import opened Schedule
  import opened ScopeParser

  /** The scopes of a workload with these annotations, its own first; `lower` are the other four. */
  function WithLower(annotations: Annotations, formats: Formats, lower: Scopes): Scopes
    requires ParsedScope(annotations, formats).Some?
  {
    [ParsedScope(annotations, formats).value] + lower
  }

  /** What the list in the annotation says of an instant; without the annotation it contains none. */
  function Hits(annotations: Annotations, key: Key, formats: Formats, now: Instant, defaults: Defaults): Option<bool> {
    if key !in annotations then Some(false)
    else
      var spans := formats.spans(annotations[key]);
      if spans.Some? then InSpans(spans.value, now, defaults) else None
  }

  // ----- forced -----

  /** A forced time decides over everything else. */
  lemma ForceAnnotationsDecide(annotations: Annotations, formats: Formats, lower: Scopes, now: Instant)
    requires ParsedScope(annotations, formats).Some?
    ensures var scopes := WithLower(annotations, formats, lower);
            var down := Hits(annotations, ForceDowntimeKey, formats, now, DefaultsOf(scopes));
            var up := Hits(annotations, ForceUptimeKey, formats, now, DefaultsOf(scopes));
            var d := CurrentScaling(scopes, now);
            && (down == Some(true) && up == Some(false) ==> d == ScalingDecision(ScalingDown, Some(0)))
            && (down == Some(false) && up == Some(true) ==> d == ScalingDecision(ScalingUp, Some(0)))
            && (down == Some(true) && up == Some(true) ==> d == ScalingDecision(ScalingMultiple, Some(0)))
            && (down == None || up == None ==> d == ScalingDecision(ScalingIncomplete, Some(0)))
  {
    hide InSpans, DefaultsOf, AnyMalformed;
    var scopes := WithLower(annotations, formats, lower);
    OwnListsAreAnnotations(annotations, formats);
    if ForceDowntimeKey in annotations || ForceUptimeKey in annotations {
      assert FirstForce(scopes, 0);
    }
  }

  /** Every list of the parsed scope comes from its own annotation. */
  lemma OwnListsAreAnnotations(annotations: Annotations, formats: Formats)
    requires ParsedScope(annotations, formats).Some?
    ensures var own := ParsedScope(annotations, formats).value;
            && ListIs(own.downTime, annotations, DowntimeKey, formats)
            && ListIs(own.upTime, annotations, UptimeKey, formats)
            && ListIs(own.downscalePeriod, annotations, DownscalePeriodKey, formats)
            && ListIs(own.upscalePeriod, annotations, UpscalePeriodKey, formats)
            && ListIs(own.forceDowntime, annotations, ForceDowntimeKey, formats)
            && ListIs(own.forceUptime, annotations, ForceUptimeKey, formats)
            && ListIs(own.exclude, annotations, ExcludeKey, formats)
  {
  }

  predicate ListIs(spans: SpanList, annotations: Annotations, key: Key, formats: Formats) {
    if key in annotations then spans.Some? && formats.spans(annotations[key]) == spans else spans.None?
  }

  // ----- scheduled -----

  /** Without a forced time anywhere, a downtime decides alone, an uptime decides alone, and the two periods contend. */
  lemma ScheduleAnnotationsDecide(annotations: Annotations, formats: Formats, lower: Scopes, now: Instant)
    requires ParsedScope(annotations, formats).Some? && NoForce(lower)
    requires ForceDowntimeKey !in annotations && ForceUptimeKey !in annotations
    ensures var scopes := WithLower(annotations, formats, lower);
            var d := CurrentScaling(scopes, now);
            var downtime := Hits(annotations, DowntimeKey, formats, now, DefaultsOf(scopes));
            var uptime := Hits(annotations, UptimeKey, formats, now, DefaultsOf(scopes));
            var down := Hits(annotations, DownscalePeriodKey, formats, now, DefaultsOf(scopes));
            var up := Hits(annotations, UpscalePeriodKey, formats, now, DefaultsOf(scopes));
            && (DowntimeKey in annotations ==>
                  && (downtime == Some(true) ==> d == ScalingDecision(ScalingDown, Some(0)))
                  && (downtime == Some(false) ==> d == ScalingDecision(ScalingUp, Some(0)))
                  && (downtime == None ==> d == ScalingDecision(ScalingIncomplete, Some(0))))
            && (UptimeKey in annotations ==>
                  && (uptime == Some(true) ==> d == ScalingDecision(ScalingUp, Some(0)))
                  && (uptime == Some(false) ==> d == ScalingDecision(ScalingDown, Some(0)))
                  && (uptime == None ==> d == ScalingDecision(ScalingIncomplete, Some(0))))
            && (DownscalePeriodKey in annotations || UpscalePeriodKey in annotations ==>
                  && (down == Some(true) && up == Some(false) ==> d == ScalingDecision(ScalingDown, Some(0)))
                  && (down == Some(false) && up == Some(true) ==> d == ScalingDecision(ScalingUp, Some(0)))
                  && (down == Some(true) && up == Some(true) ==> d == ScalingDecision(ScalingMultiple, Some(0)))
                  && (down == Some(false) && up == Some(false) ==> d == ScalingDecision(ScalingIgnore, Some(0)))
                  && (down == None || up == None ==> d == ScalingDecision(ScalingIncomplete, Some(0))))
  {
    hide InSpans, DefaultsOf, AnyMalformed;
    var scopes := WithLower(annotations, formats, lower);
    OwnListsAreAnnotations(annotations, formats);
    CompatibleAnnotations(annotations, formats);
    hide ParsedScope;
    assert NoForce(scopes);
    if scopes[0].ScheduleSet() { assert FirstSchedule(scopes, 0); }
  }

  /** A downtime excludes an uptime, and either excludes the periods. */
  lemma CompatibleAnnotations(annotations: Annotations, formats: Formats)
    requires ParsedScope(annotations, formats).Some?
    ensures !Clash(annotations)
  {
    OwnListsAreAnnotations(annotations, formats);
  }

  predicate Clash(annotations: Annotations) {
    || (DowntimeKey in annotations && UptimeKey in annotations)
    || ((DowntimeKey in annotations || UptimeKey in annotations) &&
        (DownscalePeriodKey in annotations || UpscalePeriodKey in annotations))
  }

  // ----- excluded -----

  /** No annotation sets a timezone or a week frame. */
  lemma NoOwnDefaults(annotations: Annotations, formats: Formats, lower: Scopes)
    requires ParsedScope(annotations, formats).Some?
    ensures DefaultsOf(WithLower(annotations, formats, lower)) == DefaultsOf(lower)
  {
    hide AnyMalformed;
    assert WithLower(annotations, formats, lower)[1..] == lower;
  }

  /** The exclude list decides when it contains the instant or fails. Otherwise, and without one anywhere, an
      exclude-until ahead excludes. */
  lemma ExcludeAnnotationsDecide(annotations: Annotations, formats: Formats, lower: Scopes, now: Instant)
    requires ParsedScope(annotations, formats).Some?
    ensures var scopes := WithLower(annotations, formats, lower);
            var hit := Hits(annotations, ExcludeKey, formats, now, DefaultsOf(scopes));
            var until := if ExcludeUntilKey in annotations then formats.timestamp(annotations[ExcludeUntilKey])
                         else None;
            && (ExcludeKey in annotations && hit == Some(true) ==> IsExcluded(scopes, now))
            && (ExcludeKey in annotations && hit == None ==> !IsExcluded(scopes, now))
            && (ExcludeKey in annotations && hit == Some(false) ==>
                  (IsExcluded(scopes, now) <==> (until.Some? && now < until.value) || ExcludedUntil(lower, now)))
            && (ExcludeKey !in annotations && NoneHas(lower, (s: Scope) => s.exclude.Some?) ==>
                  (IsExcluded(scopes, now) <==> (until.Some? && now < until.value) || ExcludedUntil(lower, now)))
            && (ExcludeUntilKey in annotations ==> until.Some?)
  {
    hide InSpans, DefaultsOf;
    var scopes := WithLower(annotations, formats, lower);
    var own := scopes[0];
    OwnListsAreAnnotations(annotations, formats);
    assert scopes[1..] == lower;
    UntilOfFirst(scopes, now);
    if ExcludeKey in annotations {
      assert FirstExclude(scopes, 0);
      forall i: nat | FirstExclude(scopes, i) ensures i == 0 {
        FirstIsUnique(scopes, (s: Scope) => s.exclude.Some?, 0, i);
      }
    } else if NoneHas(lower, (s: Scope) => s.exclude.Some?) {
      FirstOfRest(scopes, (s: Scope) => s.exclude.Some?, 0);
      assert forall i: nat :: !FirstExclude(scopes, i);
    }
  }

  /** Without the two annotations the lower scopes decide. */
  lemma ExclusionPassesOn(annotations: Annotations, formats: Formats, lower: Scopes, now: Instant)
    requires ParsedScope(annotations, formats).Some?
    requires ExcludeKey !in annotations && ExcludeUntilKey !in annotations
    ensures IsExcluded(WithLower(annotations, formats, lower), now) <==> IsExcluded(lower, now)
  {
    hide DefaultsOf, InSpans, AnyMalformed;
    var scopes := WithLower(annotations, formats, lower);
    NoOwnDefaults(annotations, formats, lower);
    OwnListsAreAnnotations(annotations, formats);
    assert scopes[0].exclude.None? && scopes[0].excludeUntil.None?;
    hide ParsedScope;
    assert scopes[1..] == lower;
    UntilOfFirst(scopes, now);
    forall i: nat ensures FirstExclude(scopes, i) <==> i > 0 && FirstExclude(lower, i - 1) {
      FirstOfRest(scopes, (s: Scope) => s.exclude.Some?, i);
    }
    forall i: nat | FirstExclude(lower, i) ensures FirstExclude(scopes, i + 1) && scopes[i + 1] == lower[i] {
    }
  }

  lemma UntilOfFirst(scopes: Scopes, now: Instant)
    requires scopes != []
    ensures ExcludedUntil(scopes, now) <==> FutureUntil(scopes[0], now) || ExcludedUntil(scopes[1..], now)
  {
    var rest := scopes[1..];
    if FutureUntil(scopes[0], now) { assert ExcludedUntil(scopes, now); }
    if k :| 0 <= k < |rest| && FutureUntil(rest[k], now) { assert FutureUntil(scopes[k + 1], now); }
    if k :| 0 < k < |scopes| && FutureUntil(scopes[k], now) { assert FutureUntil(rest[k - 1], now); }
  }

  // ----- the other settings -----

  /** The downscale replicas, the grace period, and the two switches are the annotation's where there is one. */
  lemma SettingAnnotationsDecide(annotations: Annotations, formats: Formats, lower: Scopes)
    requires ParsedScope(annotations, formats).Some?
    ensures var scopes := WithLower(annotations, formats, lower);
            && GetDownscaleReplicas(scopes) ==
               (if DownscaleReplicasKey in annotations then Parse(annotations[DownscaleReplicasKey])
                else GetDownscaleReplicas(lower))
            && (DownscaleReplicasKey in annotations ==> GetDownscaleReplicas(scopes).Some?)
            && GetScaleChildren(scopes) ==
               (if ScaleChildrenKey in annotations then ParseBool(annotations[ScaleChildrenKey]) == Some(true)
                else GetScaleChildren(lower))
            && GetUpscaleExcluded(scopes) ==
               (if UpscaleExcludedKey in annotations && ParseBool(annotations[UpscaleExcludedKey]).Some?
                then ParseBool(annotations[UpscaleExcludedKey]) == Some(true) else GetUpscaleExcluded(lower))
  {
    assert WithLower(annotations, formats, lower)[1..] == lower;
  }

  /** A grace period of -1ns counts as none. */
  lemma GraceAnnotationDecides(annotations: Annotations, formats: Formats, lower: Scopes, created: Instant,
                               now: Instant)
    requires ParsedScope(annotations, formats).Some?
    ensures var scopes := WithLower(annotations, formats, lower);
            var grace := if GracePeriodKey in annotations then formats.duration(annotations[GracePeriodKey]) else None;
            && (GracePeriodKey in annotations ==> grace.Some?)
            && (InGrace(scopes, created, now) <==>
                if grace.Some? && grace.value != -1 then now < created + grace.value else InGrace(lower, created, now))
  {
    var scopes := WithLower(annotations, formats, lower);
    var grace := (s: Scope) => s.GraceSet();
    assert scopes[1..] == lower;
    forall i: nat
      ensures FirstGrace(scopes, i) <==>
              if i == 0 then scopes[0].GraceSet() else !scopes[0].GraceSet() && FirstGrace(lower, i - 1)
    {
      FirstOfRest(scopes, grace, i);
    }
    if InGrace(lower, created, now) && !scopes[0].GraceSet() {
      var i: nat :| FirstGrace(lower, i) && now < created + lower[i].gracePeriod;
      assert FirstGrace(scopes, i + 1) && scopes[i + 1] == lower[i];
    }
  }

  /** The texts of a switch that is on. */
  lemma OnTexts()
    ensures ParseBool("true") == ParseBool("True") == ParseBool("TRUE") == Some(true)
    ensures ParseBool("t") == ParseBool("T") == ParseBool("1") == Some(true)
  {
  }

  /** The texts of a switch that is off, and one that is neither. */
  lemma OffTexts()
    ensures ParseBool("false") == ParseBool("False") == ParseBool("FALSE") == Some(false)
    ensures ParseBool("f") == ParseBool("F") == ParseBool("0") == Some(false)
    ensures ParseBool("yes") == None
  {
    NotOn("false");
    NotOn("False");
    NotOn("FALSE");
    NotOn("f");
    NotOn("F");
    NotOn("0");
    NotOn("yes");
  }

  /** Every text of a switch that is on starts with one of three characters. */
  lemma NotOn(text: string)
    requires text != "" && text[0] !in {'t', 'T', '1'}
    ensures ParseBool(text) != Some(true)
    ensures ParseBool(text) == Some(false) <==> text in ["0", "f", "F", "FALSE", "false", "False"]
  {
  }

  // ----- errors -----

  /** The text of a scope annotation that cannot be read. Upscale-excluded is not among them: its errors are logged and
      ignored. */
  predicate Unreadable(key: Key, text: string, formats: Formats) {
    match key
    case DownscalePeriodKey => formats.spans(text).None?
    case DowntimeKey => formats.spans(text).None?
    case UpscalePeriodKey => formats.spans(text).None?
    case UptimeKey => formats.spans(text).None?
    case ExcludeKey => formats.spans(text).None?
    case ForceUptimeKey => formats.spans(text).None?
    case ForceDowntimeKey => formats.spans(text).None?
    case ExcludeUntilKey => formats.timestamp(text).None?
    case DownscaleReplicasKey => Parse(text).None?
    case GracePeriodKey => formats.duration(text).None?
    case ScaleChildrenKey => ParseBool(text).None?
    case _ => false
  }

  /** A scope fails to parse exactly for an unreadable annotation or for two that contradict each other. */
  lemma ScopeFailsExactly(annotations: Annotations, formats: Formats)
    ensures ParsedScope(annotations, formats).None? <==>
            (exists key <- annotations :: Unreadable(key, annotations[key], formats)) || Clash(annotations)
  {
    hide Parse, ParseBool;
    if AnyMalformed(annotations, formats) {
      MalformedIsUnreadable(annotations, formats);
    }
  }

  lemma MalformedIsUnreadable(annotations: Annotations, formats: Formats)
    ensures AnyMalformed(annotations, formats) <==>
            exists key <- annotations :: Unreadable(key, annotations[key], formats)
  {
    hide Parse, ParseBool;
    if AnyMalformed(annotations, formats) {
      var key := MalformedKey(annotations, formats);
    }
  }

  lemma MalformedKey(annotations: Annotations, formats: Formats) returns (key: Key)
    requires AnyMalformed(annotations, formats)
    ensures key in annotations && Unreadable(key, annotations[key], formats)
  {
    hide Parse, ParseBool;
    if Malformed(annotations, DownscalePeriodKey, formats.spans) { key := DownscalePeriodKey; }
    else if Malformed(annotations, DowntimeKey, formats.spans) { key := DowntimeKey; }
    else if Malformed(annotations, UpscalePeriodKey, formats.spans) { key := UpscalePeriodKey; }
    else if Malformed(annotations, UptimeKey, formats.spans) { key := UptimeKey; }
    else if Malformed(annotations, ExcludeKey, formats.spans) { key := ExcludeKey; }
    else if Malformed(annotations, ExcludeUntilKey, formats.timestamp) { key := ExcludeUntilKey; }
    else if Malformed(annotations, ForceUptimeKey, formats.spans) { key := ForceUptimeKey; }
    else if Malformed(annotations, ForceDowntimeKey, formats.spans) { key := ForceDowntimeKey; }
    else if Malformed(annotations, DownscaleReplicasKey, Parse) { key := DownscaleReplicasKey; }
    else if Malformed(annotations, GracePeriodKey, formats.duration) { key := GracePeriodKey; }
    else { key := ScaleChildrenKey; }
  }

  // ----- no annotation decides what belongs to another -----

  /** Each decision depends on its own annotations alone: those that agree on them agree on it. */
  lemma NoOtherAnnotationDecides(a: Annotations, b: Annotations, formats: Formats, lower: Scopes, created: Instant,
                                 now: Instant)
    requires ParsedScope(a, formats).Some? && ParsedScope(b, formats).Some?
    ensures var before, after := WithLower(a, formats, lower), WithLower(b, formats, lower);
            && ((forall key: Key :: DecidesScaling(key) ==> SameAt(a, b, key)) ==>
                  CurrentScaling(before, now) == CurrentScaling(after, now))
            && (SameAt(a, b, ExcludeKey) && SameAt(a, b, ExcludeUntilKey) ==>
                  (IsExcluded(before, now) <==> IsExcluded(after, now)))
            && (SameAt(a, b, DownscaleReplicasKey) ==> GetDownscaleReplicas(before) == GetDownscaleReplicas(after))
            && (SameAt(a, b, GracePeriodKey) ==>
                  (InGrace(before, created, now) <==> InGrace(after, created, now)))
            && (SameAt(a, b, ScaleChildrenKey) ==> GetScaleChildren(before) == GetScaleChildren(after))
            && (SameAt(a, b, UpscaleExcludedKey) ==> GetUpscaleExcluded(before) == GetUpscaleExcluded(after))
  {
    hide ParsedScope, CurrentScaling, IsExcluded, InGrace, SameAt, WithLower, GetDownscaleReplicas, GetScaleChildren,
         GetUpscaleExcluded;
    if forall key: Key :: DecidesScaling(key) ==> SameAt(a, b, key) { SameScaling(a, b, formats, lower, now); }
    if SameAt(a, b, ExcludeKey) && SameAt(a, b, ExcludeUntilKey) { SameExclusion(a, b, formats, lower, now); }
    SameSettings(a, b, formats, lower, created, now);
  }

  predicate DecidesScaling(key: Key) {
    key.DowntimeKey? || key.UptimeKey? || key.DownscalePeriodKey? || key.UpscalePeriodKey? || key.ForceDowntimeKey? ||
    key.ForceUptimeKey?
  }

  lemma SameScaling(a: Annotations, b: Annotations, formats: Formats, lower: Scopes, now: Instant)
    requires ParsedScope(a, formats).Some? && ParsedScope(b, formats).Some?
    requires forall key: Key :: DecidesScaling(key) ==> SameAt(a, b, key)
    ensures CurrentScaling(WithLower(a, formats, lower), now) == CurrentScaling(WithLower(b, formats, lower), now)
  {
    hide CurrentScaling, DefaultsOf;
    NoOwnDefaults(a, formats, lower);
    NoOwnDefaults(b, formats, lower);
    OwnListsAreAnnotations(a, formats);
    OwnListsAreAnnotations(b, formats);
    hide ParsedScope;
    assert SameAt(a, b, DowntimeKey) && SameAt(a, b, UptimeKey) && SameAt(a, b, DownscalePeriodKey) &&
           SameAt(a, b, UpscalePeriodKey) && SameAt(a, b, ForceDowntimeKey) && SameAt(a, b, ForceUptimeKey);
    SameListsSameDecision(WithLower(a, formats, lower), WithLower(b, formats, lower), now);
  }

  lemma SameExclusion(a: Annotations, b: Annotations, formats: Formats, lower: Scopes, now: Instant)
    requires ParsedScope(a, formats).Some? && ParsedScope(b, formats).Some?
    requires SameAt(a, b, ExcludeKey) && SameAt(a, b, ExcludeUntilKey)
    ensures IsExcluded(WithLower(a, formats, lower), now) <==> IsExcluded(WithLower(b, formats, lower), now)
  {
    hide DefaultsOf, InSpans, AnyMalformed;
    NoOwnDefaults(a, formats, lower);
    NoOwnDefaults(b, formats, lower);
    var before, after := WithLower(a, formats, lower), WithLower(b, formats, lower);
    assert before[0].exclude == after[0].exclude && before[0].excludeUntil == after[0].excludeUntil;
    hide ParsedScope;
    forall i: nat ensures FirstExclude(before, i) <==> FirstExclude(after, i) {
      FirstOfRest(before, (s: Scope) => s.exclude.Some?, i);
      FirstOfRest(after, (s: Scope) => s.exclude.Some?, i);
      assert before[1..] == after[1..];
    }
    UntilOfFirst(before, now);
    UntilOfFirst(after, now);
    assert before[1..] == lower == after[1..];
    assert forall i :: 0 <= i < |before| ==> before[i].exclude == after[i].exclude;
  }

  lemma SameSettings(a: Annotations, b: Annotations, formats: Formats, lower: Scopes, created: Instant, now: Instant)
    requires ParsedScope(a, formats).Some? && ParsedScope(b, formats).Some?
    ensures var before, after := WithLower(a, formats, lower), WithLower(b, formats, lower);
            && (SameAt(a, b, DownscaleReplicasKey) ==> GetDownscaleReplicas(before) == GetDownscaleReplicas(after))
            && (SameAt(a, b, GracePeriodKey) ==>
                  (InGrace(before, created, now) <==> InGrace(after, created, now)))
            && (SameAt(a, b, ScaleChildrenKey) ==> GetScaleChildren(before) == GetScaleChildren(after))
            && (SameAt(a, b, UpscaleExcludedKey) ==> GetUpscaleExcluded(before) == GetUpscaleExcluded(after))
  {
    hide ParsedScope, InGrace, WithLower, GetDownscaleReplicas, GetScaleChildren, GetUpscaleExcluded, Parse, ParseBool;
    SettingAnnotationsDecide(a, formats, lower);
    SettingAnnotationsDecide(b, formats, lower);
    GraceAnnotationDecides(a, formats, lower, created, now);
    GraceAnnotationDecides(b, formats, lower, created, now);
  }
}
