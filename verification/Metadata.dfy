/** What identifies a workload and what the filter looks at; scaling never changes it. */
module Metadata {
  import opened Wrappers

  datatype GroupVersionKind = GroupVersionKind(group: string, version: string, kind: string)

  datatype Owner = Owner(controller: bool, kind: string)

  /** spec.scaleTargetRef of a ScaledObject. */
  datatype TargetRef = TargetRef(apiVersion: string, kind: string, name: string)

  /** `scaleTarget` is present exactly for ScaledObjects. */
  datatype Metadata = Metadata(
    name: string,
    namespace: string,
    gvk: GroupVersionKind,
    labels: map<string, string>,
    owners: seq<Owner>,
    scaleTarget: Option<TargetRef>)
}
