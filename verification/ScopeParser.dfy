/** Reading a scope from the annotations of a workload or a namespace
    (`internal/pkg/values/scopeParser.go`). */
module ScopeParser {
  import opened Wrappers
  import opened Replicas
  import opened Annotations
  import opened TimeSpans
  import opened Schedule

  /** The text formats that are not modelled: lists of time spans, RFC 3339 timestamps and durations. */
  datatype Formats = Formats(
    spans: string -> Option<seq<Span>>,
    timestamp: string -> Option<Instant>,
    duration: string -> Option<int>)

  /** `strconv.ParseBool`. */
  function ParseBool(text: string): Option<bool> {
    if text in ["1", "t", "T", "TRUE", "true", "True"] then Some(true)
    else if text in ["0", "f", "F", "FALSE", "false", "False"] then Some(false)
    else None
  }

  /** CheckForIncompatibleFields */
  predicate Compatible(scope: Scope) {
    !(scope.upTime.Some? && scope.downTime.Some?) &&
    !((scope.upTime.Some? || scope.downTime.Some?) && (scope.upscalePeriod.Some? || scope.downscalePeriod.Some?))
  }

  // ----- what each annotation contributes -----

  function Field<T>(annotations: Annotations, key: Key, parse: string -> Option<T>): Option<T> {
    if key in annotations then parse(annotations[key]) else None
  }

  /** Present but not readable. */
  predicate Malformed<T>(annotations: Annotations, key: Key, parse: string -> Option<T>) {
    key in annotations && parse(annotations[key]).None?
  }

  /** Every field from its own annotation and nothing else. */
  function Fields(annotations: Annotations, formats: Formats): Scope {
    EMPTY_SCOPE.(
      downscalePeriod := Field(annotations, DownscalePeriodKey, formats.spans),
      downTime := Field(annotations, DowntimeKey, formats.spans),
      upscalePeriod := Field(annotations, UpscalePeriodKey, formats.spans),
      upTime := Field(annotations, UptimeKey, formats.spans),
      exclude := Field(annotations, ExcludeKey, formats.spans),
      excludeUntil := Field(annotations, ExcludeUntilKey, formats.timestamp),
      forceUptime := Field(annotations, ForceUptimeKey, formats.spans),
      forceDowntime := Field(annotations, ForceDowntimeKey, formats.spans),
      downscaleReplicas := Field(annotations, DownscaleReplicasKey, Parse),
      gracePeriod :=
        var grace := Field(annotations, GracePeriodKey, formats.duration);
        if grace.Some? then grace.value else UNSET_GRACE,
      scaleChildren := Field(annotations, ScaleChildrenKey, ParseBool),
      upscaleExcluded := Field(annotations, UpscaleExcludedKey, ParseBool))
  }

  /** A malformed upscale-excluded annotation is logged and otherwise ignored; any other malformed annotation
      fails. */
  predicate AnyMalformed(annotations: Annotations, formats: Formats) {
    || Malformed(annotations, DownscalePeriodKey, formats.spans)
    || Malformed(annotations, DowntimeKey, formats.spans)
    || Malformed(annotations, UpscalePeriodKey, formats.spans)
    || Malformed(annotations, UptimeKey, formats.spans)
    || Malformed(annotations, ExcludeKey, formats.spans)
    || Malformed(annotations, ExcludeUntilKey, formats.timestamp)
    || Malformed(annotations, ForceUptimeKey, formats.spans)
    || Malformed(annotations, ForceDowntimeKey, formats.spans)
    || Malformed(annotations, DownscaleReplicasKey, Parse)
    || Malformed(annotations, GracePeriodKey, formats.duration)
    || Malformed(annotations, ScaleChildrenKey, ParseBool)
  }

  function ParsedScope(annotations: Annotations, formats: Formats): Option<Scope> {
    if AnyMalformed(annotations, formats) || !Compatible(Fields(annotations, formats)) then None
    else Some(Fields(annotations, formats))
  }

  /** One annotation: absent, read, or malformed. */
  method ReadAnnotation<T>(annotations: Annotations, key: Key, parse: string -> Option<T>)
    returns (value: Option<T>, malformed: bool)
    ensures value == Field(annotations, key, parse) && malformed == Malformed(annotations, key, parse)
  {
    if key !in annotations {
      return None, false;
    }
    value := parse(annotations[key]);
    malformed := value.None?;
  }

  method GetScopeFromAnnotations(annotations: Annotations, formats: Formats) returns (r: Option<Scope>)
    ensures r == ParsedScope(annotations, formats)
  {
    hide Field, Malformed, Compatible;
    var scope := EMPTY_SCOPE;
    var malformed;
    var spans: SpanList;
    spans, malformed := ReadAnnotation(annotations, DownscalePeriodKey, formats.spans);
    if malformed { return None; }
    scope := scope.(downscalePeriod := spans);
    spans, malformed := ReadAnnotation(annotations, DowntimeKey, formats.spans);
    if malformed { return None; }
    scope := scope.(downTime := spans);
    spans, malformed := ReadAnnotation(annotations, UpscalePeriodKey, formats.spans);
    if malformed { return None; }
    scope := scope.(upscalePeriod := spans);
    spans, malformed := ReadAnnotation(annotations, UptimeKey, formats.spans);
    if malformed { return None; }
    scope := scope.(upTime := spans);
    spans, malformed := ReadAnnotation(annotations, ExcludeKey, formats.spans);
    if malformed { return None; }
    scope := scope.(exclude := spans);
    var timestamp;
    timestamp, malformed := ReadAnnotation(annotations, ExcludeUntilKey, formats.timestamp);
    if malformed { return None; }
    scope := scope.(excludeUntil := timestamp);
    spans, malformed := ReadAnnotation(annotations, ForceUptimeKey, formats.spans);
    if malformed { return None; }
    scope := scope.(forceUptime := spans);
    spans, malformed := ReadAnnotation(annotations, ForceDowntimeKey, formats.spans);
    if malformed { return None; }
    scope := scope.(forceDowntime := spans);
    var replicas;
    replicas, malformed := ReadAnnotation(annotations, DownscaleReplicasKey, Parse);
    if malformed { return None; }
    scope := scope.(downscaleReplicas := replicas);
    var duration;
    duration, malformed := ReadAnnotation(annotations, GracePeriodKey, formats.duration);
    if malformed { return None; }
    if duration.Some? {
      scope := scope.(gracePeriod := duration.value);
    }
    var scaleChildren;
    scaleChildren, malformed := ReadAnnotation(annotations, ScaleChildrenKey, ParseBool);
    if malformed { return None; }
    scope := scope.(scaleChildren := scaleChildren);
    var upscaleExcluded;
    upscaleExcluded, malformed := ReadAnnotation(annotations, UpscaleExcludedKey, ParseBool);
    scope := scope.(upscaleExcluded := upscaleExcluded);
    assert scope == Fields(annotations, formats);
    if !Compatible(scope) {
      return None;
    }
    return Some(scope);
  }

  // ----- what the scope depends on -----

  ghost predicate SameScopeKeys(a: Annotations, b: Annotations) {
    forall key: Key :: key.IsScopeKey() ==> SameAt(a, b, key)
  }

  lemma SameField<T>(a: Annotations, b: Annotations, key: Key, parse: string -> Option<T>)
    requires SameScopeKeys(a, b) && key.IsScopeKey()
    ensures Field(a, key, parse) == Field(b, key, parse)
    ensures Malformed(a, key, parse) == Malformed(b, key, parse)
  {
  }

  lemma OnlyScopeKeysMatter(a: Annotations, b: Annotations, formats: Formats)
    requires SameScopeKeys(a, b)
    ensures ParsedScope(a, formats) == ParsedScope(b, formats)
  {
    hide Field, Malformed, Compatible, SameScopeKeys, Parse, ParseBool;
    SameField(a, b, DownscalePeriodKey, formats.spans);
    SameField(a, b, DowntimeKey, formats.spans);
    SameField(a, b, UpscalePeriodKey, formats.spans);
    SameField(a, b, UptimeKey, formats.spans);
    SameField(a, b, ExcludeKey, formats.spans);
    SameField(a, b, ExcludeUntilKey, formats.timestamp);
    SameField(a, b, ForceUptimeKey, formats.spans);
    SameField(a, b, ForceDowntimeKey, formats.spans);
    SameField(a, b, DownscaleReplicasKey, Parse);
    SameField(a, b, GracePeriodKey, formats.duration);
    SameField(a, b, ScaleChildrenKey, ParseBool);
    SameField(a, b, UpscaleExcludedKey, ParseBool);
    assert Fields(a, formats) == Fields(b, formats);
  }
}
