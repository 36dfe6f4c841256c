/** Annotation keys. The keys the program knows are constructors, so that telling them apart costs the
    verifier nothing; `Name` gives the text each one stands for. */
module Annotations {
  datatype KeyText =
    // read when a scope is parsed from a workload or a namespace
    | DownscalePeriodKey | DowntimeKey | UpscalePeriodKey | UptimeKey | ExcludeKey | ExcludeUntilKey
    | ForceUptimeKey | ForceDowntimeKey | DownscaleReplicasKey | GracePeriodKey | ScaleChildrenKey
    | UpscaleExcludedKey
    // written by scaling
    | OriginalReplicasKey
    | PausedReplicasKey
    // any other text
    | OtherKey(name: string)
  {
    predicate IsScopeKey() {
      !OriginalReplicasKey? && !PausedReplicasKey? && !OtherKey?
    }

    /** Neither read nor written by scaling. */
    predicate Foreign() {
      !OriginalReplicasKey? && !PausedReplicasKey?
    }

    function Name(): string {
      match this
      case DownscalePeriodKey => "downscaler/downscale-period"
      case DowntimeKey => "downscaler/downtime"
      case UpscalePeriodKey => "downscaler/upscale-period"
      case UptimeKey => "downscaler/uptime"
      case ExcludeKey => "downscaler/exclude"
      case ExcludeUntilKey => "downscaler/exclude-until"
      case ForceUptimeKey => "downscaler/force-uptime"
      case ForceDowntimeKey => "downscaler/force-downtime"
      case DownscaleReplicasKey => "downscaler/downscale-replicas"
      case GracePeriodKey => "downscaler/grace-period"
      case ScaleChildrenKey => "downscaler/scale-children"
      case UpscaleExcludedKey => "downscaler/upscale-excluded"
      case OriginalReplicasKey => "downscaler/original-replicas"
      case PausedReplicasKey => "autoscaling.keda.sh/paused-replicas"
      case OtherKey(name) => name
    }
  }

  predicate KnownName(name: string) {
    || name == DownscalePeriodKey.Name() || name == DowntimeKey.Name()
    || name == UpscalePeriodKey.Name() || name == UptimeKey.Name()
    || name == ExcludeKey.Name() || name == ExcludeUntilKey.Name()
    || name == ForceUptimeKey.Name() || name == ForceDowntimeKey.Name()
    || name == DownscaleReplicasKey.Name() || name == GracePeriodKey.Name()
    || name == ScaleChildrenKey.Name() || name == UpscaleExcludedKey.Name()
    || name == OriginalReplicasKey.Name() || name == PausedReplicasKey.Name()
  }

  /** A text the program knows is a key in one way only. */
  type Key = k: KeyText | k.OtherKey? ==> !KnownName(k.name)
    witness OriginalReplicasKey

  type Annotations = map<Key, string>

  /** Both have the key with the same text, or neither has it. */
  predicate SameAt(a: Annotations, b: Annotations, key: Key) {
    (key in a <==> key in b) && (key in a && key in b ==> a[key] == b[key])
  }

  /** Keys with the same text are the same, so a map from keys is a map from texts. */
  lemma NamesAreDistinct(a: Key, b: Key)
    requires a.Name() == b.Name()
    ensures a == b
  {
    if !a.OtherKey? && !b.OtherKey? {
      // the first letter after the prefix and the length tell the known names apart
      assert |a.Name()| == |b.Name()| && a.Name()[11] == b.Name()[11];
    }
  }

  lemma EveryTextIsAKey(text: string) returns (key: Key)
    ensures key.Name() == text
  {
    if text == DownscalePeriodKey.Name() { key := DownscalePeriodKey; }
    else if text == DowntimeKey.Name() { key := DowntimeKey; }
    else if text == UpscalePeriodKey.Name() { key := UpscalePeriodKey; }
    else if text == UptimeKey.Name() { key := UptimeKey; }
    else if text == ExcludeKey.Name() { key := ExcludeKey; }
    else if text == ExcludeUntilKey.Name() { key := ExcludeUntilKey; }
    else if text == ForceUptimeKey.Name() { key := ForceUptimeKey; }
    else if text == ForceDowntimeKey.Name() { key := ForceDowntimeKey; }
    else if text == DownscaleReplicasKey.Name() { key := DownscaleReplicasKey; }
    else if text == GracePeriodKey.Name() { key := GracePeriodKey; }
    else if text == ScaleChildrenKey.Name() { key := ScaleChildrenKey; }
    else if text == UpscaleExcludedKey.Name() { key := UpscaleExcludedKey; }
    else if text == OriginalReplicasKey.Name() { key := OriginalReplicasKey; }
    else if text == PausedReplicasKey.Name() { key := PausedReplicasKey; }
    else { key := OtherKey(text); }
  }
}
