# Verified model of GoKubeDownscaler

GoKubeDownscaler scales Kubernetes workloads down on a schedule and up again later. A schedule decides, a scaler
rewrites the workload and keeps the original value as text in an annotation, and a retry loop commits the rewritten
object to an API server that accepts it only if nobody else wrote it meanwhile. The project models these three parts
and the code around them, and proves what they promise together:

- **The original is never lost.** With any number of controller instances sharing one target, any interleaving of
  their reads, computations, commits, conflicts, crashes and re-reads, and a user who edits the object while it is not
  scaled down, the server always holds what the user asked for or that scaled down, and one scale-up gives it back
  (`Cluster.OriginalNeverLost`). This holds exactly for the objects and targets of `Cluster.Eligible`: every other
  object can be lost by a single instance (`Cluster.OriginalLostOtherwise`). The retry loop is proved to produce only
  runs of that system, with at most one write (`Controller.AttemptScaling`), and so is every scan of a cycle
  (`Scan.ScanWorkload`, `Scan.ScanCycle`).
- **The retry loop makes progress.** How every attempt ends follows from what happens around it: it runs out exactly if
  each allowed update is refused (`Controller.RunsOutAfterAllTurns`), and without faults one undisturbed turn is enough
  (`Controller.Progress`).
- **A scale-down leaves the object down and a scale-up leaves it up**, with exact errors and savings
  (`Effects.DownIsDown`, `Effects.UpIsUp`, `Effects.DownFailsExactly`, `Effects.UpFailsExactly`).
- **Scaling up undoes scaling down** for all eight object kinds in five families, with the exact condition
  (`Laws.UpUndoesDown`), and what happens to every other object (`Laws.UpAfterDown`). The text codec behind it is proved
  in both directions (`Replicas.RoundTrip`, `Replicas.VerbatimExactly`).
- **The decision** is the one the priorities describe (`Schedule.GetCurrentScaling`), does not change when defaults are
  added (`Schedule.MoreDefaultsSameDecision`), and its weekly spans cover the minutes they should, at the local times
  they should (`Weekly.WeeklyMeasure`, `Weekly.SpanOfLocalTimes`).
- **From an annotation to the server**: each of the twelve scope annotations takes part in its own decision and in no
  other (module `Decisions`), and an undisturbed scan leaves the server with what the decision says
  (`Scan.ScanWorkload`, `Scan.PlannedBySchedule`, `Scan.DowntimeIsCarriedOut`).
- **Webhook and controller agree** (`Webhook.ControllerAgrees`, `Filter.WebhookFiltersAlike`), and **every workload of
  a cycle is counted once**, by the counter of how its scan ended (`Scan.ScanCycle`).

The source breaks some of its own promises for some inputs. The model keeps the code as it is and states the exact
condition:

- A `NodePort` service, or an ingress class with a hyphen such as `nginx-internal`, is scaled down and cannot be scaled
  up again; its original stays on record (`Laws.NodePortIsStuck`, `Laws.HyphenIsStuck`). The condition is `Laws.Stuck`:
  an ingress is stuck exactly when its class does not parse. What is on record is the value as it was read, so a budget
  limit of `0150%` is stuck with `150%` on record (`Laws.LargePercentIsStuck`).
- An ingress of class `007` is scaled up to class `7` and its record is deleted, so the original is forgotten
  (`Laws.LeadingZerosAreForgotten`). An object that is not stuck comes back as `Laws.Raised` says, which is the original
  exactly under `Laws.Restorable`.
- A lowered target overwrites the recorded original with the count already lowered, so the original comes back only if
  the targets dropped at most once (`Runs.ChangingTargets`, `Runs.RestoredIffOneDrop`).
- Lowering an autoscaler's maximum below its original minimum while it is scaled down loses that minimum
  (`Cluster.MaximumExactly`).
- A downscale target of -1, or of a boolean or text for a disruption budget, is written again by every scan
  (`Runs.UpdateEveryTime`); the condition is `Laws.Settles`.
- A malformed `downscaler/upscale-excluded` annotation is logged but does not fail the scope, unlike every other
  malformed scope annotation (`ScopeParser.GetScopeFromAnnotations`).

## Layout

| file | content |
|---|---|
| `Decimal.dfy`, `Replicas.dfy` | decimal text, the replica values, their text form and parser |
| `Annotations.dfy`, `Metadata.dfy`, `Wrappers.dfy` | annotation keys, workload identity, options and results |
| `Scaling.dfy`, `Effects.dfy`, `Laws.dfy`, `Runs.dfy` | what scaling does to an object, what that means for its fields, the laws it obeys, and what many scans do |
| `Workloads.dfy` | the workload class whose methods scale in place |
| `Cluster.dfy`, `Controller.dfy` | instances, user and server as a state machine; the retry loop as a run of it |
| `TimeSpans.dfy`, `DayTimes.dfy`, `Schedule.dfy`, `Weekly.dfy` | spans, scopes, decisions, and the shape of a week |
| `ScopeParser.dfy`, `Decisions.dfy` | scopes from annotations, and which decision each annotation takes part in |
| `Filter.dfy`, `Metrics.dfy`, `Scan.dfy`, `Webhook.dfy` | the workload filter, counters, one scan cycle, the admission webhook |

`dafny verify dfyconfig.toml` checks the whole project. The `hide` statements keep definitions that a proof does not
need away from the solver.

## Assumptions

- The clock is one instant per decision; the source reads it again for every span.
- Timezones are fixed offsets. Regular expressions are the sets of texts they match. The formats of time-span lists,
  RFC 3339 timestamps (section 5.6 of RFC 3339) and durations are parameters.
- The server accepts an update if and only if the object's version is the one that was read (a conflict is status 409,
  section 15.5.10 of RFC 9110). A call may also fail before it arrives or after it was carried out.
- Which code points from 128 up are letters, and what they fold to when kinds are compared without regard to case, is
  left open: `Replicas.NON_ASCII_LETTERS` is any set and `Filter.NON_ASCII_FOLDS` any folding.
- A nil and an empty map are the same, and so are a nil and a false `suspend`.

## Model

| member | source | states |
|---|---|---|
| Decimal.ScanIntOfPrinted | internal/pkg/values/replicas.go:23-23 | printing any integer and reading it back within a signed range gives that integer exactly when it is in the range |
| Decimal.PrintedIffCanonical | internal/pkg/values/replicas.go:137-148 | a text that reads as an integer is what that integer prints if and only if it has no plus sign, leading zero or minus zero |
| Replicas.ReplicasValue.Set | internal/pkg/values/replicas.go:91-128 | an accepted text replaces the value by the parsed one, a refused one leaves it |
| Replicas.RoundTrip | internal/pkg/values/replicas.go:91-181 | a value reads back from its text if and only if it is a count from -1 up, a percentage from 0 to 100, a boolean, or letters other than true and false in any case |
| Replicas.BooleansInAnyCase | internal/pkg/values/replicas.go:163-181 | true and false are read as booleans in any case |
| Replicas.ParsedIsStorable | internal/pkg/values/replicas.go:135-181 | every accepted text denotes such a value |
| Replicas.ReprintIsStable | internal/pkg/values/replicas.go:91-128 | for every accepted text, parse of print of parse is parse |
| Replicas.VerbatimExactly | internal/pkg/values/replicas.go:91-210 | which texts come back letter for letter: canonical decimals and percentages in range, lower-case booleans, other letters |
| Replicas.HyphenIsNotVerbatim | internal/pkg/values/replicas.go:202-210 | `nginx-internal` is refused by the parser |
| Replicas.LimitReadsBack | internal/pkg/values/replicas.go:183-200 | a count or percentage written into a budget limit reads back as itself |
| Replicas.LetterTargetsDoNotReadBack | internal/pkg/values/replicas.go:183-200 | a boolean or text written into a budget limit reads back as 0% |
| Replicas.LimitRoundTrip | internal/pkg/values/replicas.go:183-200 | a budget limit survives being recorded as text and parsed if and only if it is a count from -1 up or a canonical percentage up to 100 |
| Replicas.TextLimitReads | internal/pkg/values/replicas.go:183-200 | a text limit reads as a percentage with or without a percent sign, and as the nearest one beyond 64 bits |
| Annotations.NamesAreDistinct | internal/pkg/values/scopeParser.go:14-26 | keys with the same text are the same key, so the two keys scaling writes differ from each other and from all scope keys |
| Annotations.EveryTextIsAKey | internal/pkg/scalable/util.go:353-363 | every text is the text of a key, so a map from keys is a map from texts |
| Laws.FailureChangesNothing | internal/pkg/scalable/replicaScaledWorkloads.go:48-156 | in every family a scaling error leaves the object as it was |
| Laws.SkipChangesNothing | internal/pkg/scalable/suspendScaledWorkloads.go:62-141 | in every family no update needed means nothing changed |
| Effects.DownIsDown | internal/pkg/scalable/suspendScaledWorkloads.go:96-141 | a scale-down that works leaves a job suspended, a daemon set with the label no node has, a service of type ClusterIP, an ingress of the target class, a count or limit at the target; an object that is down already is left alone |
| Effects.UpIsUp | internal/pkg/scalable/suspendScaledWorkloads.go:62-91 | a scale-up that works writes the record into the field it came from and deletes it; without a record nothing happens |
| Effects.DownFailsExactly | internal/pkg/scalable/replicaScaledWorkloads.go:89-156 | a scale-down fails exactly for an unreadable count or class, a target the family or resource refuses, or, when already down, an unusable record |
| Effects.UpFailsExactly | internal/pkg/scalable/replicaScaledWorkloads.go:48-84 | a scale-up fails exactly for an unreadable count or class, an unusable record, or one the resource refuses |
| Effects.RaisedTargetSaves | internal/pkg/scalable/replicaScaledWorkloads.go:114-139 | when the target is raised after the drop, the saving is that of the new target and nothing is written |
| Effects.SwitchSaves | internal/pkg/scalable/suspendScaledWorkloads.go:96-141 | a job or daemon set saves its request while it is down by scaling, and nothing when it was down before |
| Effects.OthersSaveNothing | internal/pkg/scalable/valueScaledWorkloads.go:51-129 | scale-ups and all other kinds save nothing |
| Laws.UpdateMeansChange | internal/pkg/scalable/replicaScaledWorkloads.go:83-151 | an update is needed if and only if the object changed, with the exact inputs where an update rewrites what is there |
| Laws.ScalingIgnoresForeignKeys | internal/pkg/scalable/util.go:353-389 | scaling commutes with writing any annotation it does not own, errors and savings included |
| Laws.ForeignAnnotationsStay | internal/pkg/scalable/util.go:353-389 | scaling keeps every other annotation, or its absence |
| Laws.FamilyKept | internal/pkg/scalable/util.go:353-389 | scaling never turns an object into another kind |
| Laws.ScalingIgnoresChange | internal/pkg/scalable/nodeSelectorScaledWorkload.go:88-150 | scaling commutes with changing any other annotation, the resource request, or any other node-selector label |
| Laws.DownTwiceIsDownOnce | internal/pkg/scalable/replicaScaledWorkloads.go:114-140 | a second scale-down to the same target sends nothing if and only if the written value is neither a count of -1 nor a limit that does not read back |
| Laws.UpTwiceIsUpOnce | internal/pkg/scalable/valueScaledWorkloads.go:51-82 | a second scale-up sends nothing and changes nothing, in every family and even after an error |
| Laws.ParsedTargetsSettle | internal/pkg/values/scopeParser.go:242-254 | parsed counts from 0 up and parsed percentages settle wherever the family can take them |
| Laws.UpUndoesDown | internal/pkg/scalable/util.go:353-389 | for every unannotated object of every family, scale-down then scale-up gives back the very same object if and only if it is restorable for that target |
| Laws.CountRestored | internal/pkg/scalable/horizontalpodautoscalers.go:52-75 | a lowered Deployment count comes back if it was at least -1, a lowered autoscaler minimum if it was from 1 to the maximum |
| Laws.PausedRestored | internal/pkg/scalable/scaledobjects.go:54-84 | a lowered ScaledObject comes back if its paused-replicas annotation was absent or a canonical count from 0 up |
| Laws.SuspendRestored | internal/pkg/scalable/suspendScaledWorkloads.go:62-141 | suspending and unsuspending gives back the same object |
| Laws.SelectorRestored | internal/pkg/scalable/nodeSelectorScaledWorkload.go:88-150 | adding and deleting the selector label gives back the same object, other labels included |
| Laws.ValueRestored | internal/pkg/scalable/valueScaledWorkloads.go:51-129 | a service comes back if its type is ClusterIP or LoadBalancer, an ingress if its class is the target or prints as it parses |
| Laws.ClassRestored | internal/pkg/scalable/ingresses.go:58-77 | an ingress class other than the target comes back if and only if it parses and prints as itself |
| Laws.TypeRestored | internal/pkg/scalable/services.go:98-118 | a service type other than ClusterIP comes back if and only if it is LoadBalancer |
| Laws.BudgetRestored | internal/pkg/scalable/poddisruptionbudgets.go:101-189 | a budget limit comes back if and only if it prints like the target or survives being recorded |
| Laws.SteadyExactly | internal/pkg/scalable/poddisruptionbudgets.go:143-189 | when a second scale-down leaves the object of the first, recorded original included |
| Laws.UnsteadyLoses | internal/pkg/scalable/replicaScaledWorkloads.go:114-149 | otherwise two scale-downs and a scale-up do not give the object back |
| Laws.DownRecords | internal/pkg/scalable/util.go:353-363 | every scale-down that sends an update records the value it found |
| Laws.FailedUpKeepsTheRecord | internal/pkg/scalable/valueScaledWorkloads.go:62-77 | whatever was on record before, a scale-up that fails right after a scale-down leaves the object down with the value as it was read on record |
| Laws.UpAfterDown | internal/pkg/scalable/valueScaledWorkloads.go:51-129 | for every lowered unannotated object of every family: the scale-up fails, with the object kept down and its value on record, if and only if the object is stuck; otherwise it deletes the record and gives the object as it is read and written anew, which is the original if and only if the object is restorable |
| Laws.ClassAfterDownAndUp | internal/pkg/scalable/ingresses.go:58-77 | an ingress class other than the target is recorded letter for letter; if it does not parse the scale-up fails and keeps the record, if it parses the class comes back as it prints |
| Laws.NodePortIsStuck | internal/pkg/scalable/services.go:98-110 | a NodePort service is moved to ClusterIP, every scale-up fails, and NodePort stays on record |
| Laws.HyphenIsStuck | internal/pkg/values/replicas.go:202-210 | an ingress of class nginx-internal is moved to the target class, every scale-up fails, and the class stays on record |
| Laws.LeadingZerosAreForgotten | internal/pkg/values/replicas.go:135-148 | an ingress of class 007 comes back as class 7 with no record left |
| Laws.LargePercentIsStuck | internal/pkg/values/replicas.go:183-200 | a budget limit of 0150% is recorded as 150%, which no scale-up reads |
| Laws.CountAfterDownAndUp | internal/pkg/scalable/replicaScaledWorkloads.go:48-156 | a scale-up of a lowered count fails for a count below -1, and otherwise does what setting the original count does to the original object |
| Workloads.Workload.SetOriginalReplicas | internal/pkg/scalable/util.go:353-363 | writes the printed value under the scaler's key and nothing else |
| Workloads.Workload.GetOriginalReplicas | internal/pkg/scalable/util.go:365-382 | tells an absent, an unreadable and a readable record apart |
| Workloads.Workload.RemoveOriginalReplicas | internal/pkg/scalable/util.go:384-389 | deletes the scaler's key and nothing else |
| Workloads.Workload.SetReplicas | internal/pkg/scalable/scaledobjects.go:54-67 | writes the count of the resource: -1 deletes the paused-replicas key, an autoscaler refuses counts below 1 and clamps at its maximum |
| Workloads.Workload.ReplicasScaleUp | internal/pkg/scalable/replicaScaledWorkloads.go:48-84 | ends as Scaling.ReplicasUp of the old contents: sets the recorded count and deletes the record, does nothing without one, and fails without change on a missing current count, an unreadable or non-count record, or a refused count |
| Workloads.Workload.ReplicasScaleDown | internal/pkg/scalable/replicaScaledWorkloads.go:89-156 | ends as Scaling.ReplicasDown of the old contents: a count at or below the target is left alone, -1 never is, a higher one is lowered and recorded; savings come from the record or the live count |
| Workloads.Workload.SuspendScaleUp | internal/pkg/scalable/suspendScaledWorkloads.go:62-91 | ends as Scaling.SuspendUp of the old contents: writes the recorded boolean and deletes the record, or fails without change on any other record |
| Workloads.Workload.SuspendScaleDown | internal/pkg/scalable/suspendScaledWorkloads.go:96-141 | ends as Scaling.SuspendDown of the old contents: a suspended job is never recorded, a running one is suspended and recorded as false |
| Workloads.Workload.SetValue | internal/pkg/scalable/services.go:98-110 | writes the value; a service refuses all types but two and stays as it is |
| Workloads.Workload.ValueScaleUp | internal/pkg/scalable/valueScaledWorkloads.go:51-82 | ends as Scaling.ValueUp of the old contents: writes the reprinted record and deletes it, or fails without change where the resource refuses it |
| Workloads.Workload.ValueScaleDown | internal/pkg/scalable/valueScaledWorkloads.go:85-129 | ends as Scaling.ValueDown of the old contents: whatever the target argument, an object not at its fixed down value is moved there with its value recorded |
| Workloads.Workload.SelectorScaleUp | internal/pkg/scalable/nodeSelectorScaledWorkload.go:88-111 | ends as Scaling.SelectorUp of the old contents: only with a readable record it removes the label and the record |
| Workloads.Workload.SelectorScaleDown | internal/pkg/scalable/nodeSelectorScaledWorkload.go:113-150 | ends as Scaling.SelectorDown of the old contents: only without the label it adds it and records false |
| Workloads.Workload.BudgetScaleUp | internal/pkg/scalable/poddisruptionbudgets.go:101-140 | ends as Scaling.BudgetUp of the old contents: writes the record into maxUnavailable, or into minAvailable only if that is absent, or nowhere |
| Workloads.Workload.BudgetScaleDown | internal/pkg/scalable/poddisruptionbudgets.go:143-189 | ends as Scaling.BudgetDown of the old contents: acts on the same limit, compares by text, and records the limit as it reads |
| Runs.OneUpdateAtMost | internal/pkg/scalable/replicaScaledWorkloads.go:114-140 | under a fixed decision and a settling target, n scans send one update if the first does and none otherwise, and end where the first ends |
| Runs.UpdateEveryTime | internal/pkg/scalable/poddisruptionbudgets.go:150-167 | a target that does not settle makes every one of n scans send an update |
| Runs.SavingIsConstant | internal/pkg/scalable/replicaScaledWorkloads.go:118-147 | every scan reports the saving of the first, from the live value or from the record |
| Runs.DeploymentSaving | internal/pkg/scalable/deployments.go:80-95 | that saving is the request times the replicas taken away |
| Runs.ChangingTargets | internal/pkg/scalable/replicaScaledWorkloads.go:114-149 | after any targets from 0 up a Deployment, ScaledObject or autoscaler holds the least count seen, an unset count being above all, with the count before the last strict drop on record, or is untouched if nothing dropped; targets an autoscaler refuses change nothing |
| Runs.RestoredIffOneDrop | internal/pkg/scalable/replicaScaledWorkloads.go:48-84 | a scale-up after them gives back the original object if and only if nothing dropped, or one target did and the count is written as it was read |
| Runs.OneDropIsFirst | internal/pkg/scalable/replicaScaledWorkloads.go:118-149 | the count before the last drop is the original if and only if it was the only drop |
| Runs.BoundsHoldForever | internal/pkg/scalable/horizontalpodautoscalers.go:52-75 | 1 <= min <= max holds through every run of scans, failing ones included, and edits of the maximum that keep it |
| Runs.UpAfterEditedMax | internal/pkg/scalable/horizontalpodautoscalers.go:52-85 | down, an edited maximum, and up end at the lesser of the original and the new maximum |
| Cluster.NoLostUpdate | cmd/kubedownscaler/main.go:311-337 | in every run the server's object is what the accepted writes give one after another, and every accepted instance write is its scaling of the object just before it |
| Cluster.RunKeepsConsistent | internal/api/kubernetes/client.go:254-337 | every step keeps clean copies equal to the history at their version and dirty ones equal to one scaling of it |
| Cluster.EligibleExactly | internal/pkg/values/scopeParser.go:242-254 | for every target that can be configured, eligible means unannotated, restorable, and not one of two cases: a count lowered to -1, or a budget limit lowered to a boolean or text |
| Cluster.TwoStates | internal/pkg/scalable/replicaScaledWorkloads.go:48-156 | scaling moves an eligible object between itself and itself scaled down, and nowhere else |
| Cluster.OriginalNeverLost | cmd/kubedownscaler/main.go:301-338 | in every reachable state the server holds what the user last asked for, with what others changed beside it, or that scaled down, and one scale-up gives it back |
| Cluster.AdjustKeepsEligible | internal/pkg/scalable/horizontalpodautoscalers.go:52-75 | a change to another annotation, the request, another label, or a maximum not below the original, made while the object is down, is the same change to the original |
| Cluster.MaximumExactly | internal/pkg/scalable/horizontalpodautoscalers.go:52-75 | a new maximum on a lowered autoscaler leaves the original one scale-up away if and only if it is not below the original minimum |
| Cluster.OriginalLostOtherwise | cmd/kubedownscaler/main.go:301-338 | every unannotated object that is not eligible has a run of one instance after which a scale-up does not give it back |
| Cluster.OneScan | internal/api/kubernetes/client.go:267-337 | an undisturbed scan from any state leaves the server with the scaled object |
| Cluster.DeploymentIsEligible | internal/pkg/scalable/deployments.go:48-61 | every unannotated Deployment is eligible for every target from 0 up |
| Cluster.OtherFamiliesAreEligible | internal/pkg/scalable/scaledobjects.go:54-84 | so are undefined ScaledObjects, autoscalers within their bounds, cron jobs and daemon sets |
| Cluster.DeploymentIsSafe | internal/pkg/scalable/replicaScaledWorkloads.go:48-156 | in every run a Deployment is the user's object or has the target with the user's count on record |
| Cluster.OthersLeaveCopyAlone | internal/api/kubernetes/client.go:254-262 | no step of anyone else changes an instance's copy or writes in its name |
| Controller.Update | internal/api/kubernetes/client.go:295-298 | a commit that arrives is accepted if and only if the version read is still the last; it writes the copy, otherwise nothing, and is counted whether or not its answer arrives |
| Controller.ScaleAndCommit | internal/api/kubernetes/client.go:267-337 | scales the copy and commits it exactly when it changed and no dry run is on; it reports a conflict exactly when the update is refused, and another error exactly when the scaling or the call fails |
| Controller.Reget | internal/api/kubernetes/client.go:254-262 | a successful re-read makes the copy the latest version, and clean; a failed one is reported |
| Controller.ScaleWorkload | cmd/kubedownscaler/main.go:522-589 | which decisions act, which counter each raises, that errors raise none here, and that it passes conflicts on exactly when the update is refused |
| Controller.AttemptScaling | cmd/kubedownscaler/main.go:301-338 | is a run of the system for one decision with at most one write and at most the allowed attempts; all turns but the last are refused and read again, and the last ends as the scaling, the call and the re-read make it; each ending raises its one counter, a failed re-read none |
| Controller.TakeTurn | cmd/kubedownscaler/main.go:311-333 | one turn is a try that settles the attempt unless it is refused, and a re-read that leads to the next turn unless it fails |
| Controller.RunsOutAfterAllTurns | cmd/kubedownscaler/main.go:311-338 | an acting attempt runs out of retries if and only if each of the allowed updates is refused and read again |
| Controller.DisturbedToRunOut | cmd/kubedownscaler/main.go:311-338 | no attempt goes beyond a turn in which nobody writes before the update |
| Controller.Progress | cmd/kubedownscaler/main.go:311-337 | without faults, with one undisturbed turn, and with a decision that can be carried out, the attempt is handled; it has written exactly if there was something to send, and the server holds the scaling of the object last read |
| Controller.CalmAttempt | cmd/kubedownscaler/main.go:311-337 | an undisturbed attempt takes one turn and leaves the server with the scaled object |
| Controller.AttemptIsCounted | cmd/kubedownscaler/main.go:340-348 | which of the counters each ending of each decision raises, and what it saves |
| Controller.RecordScalingError | cmd/kubedownscaler/main.go:340-348 | conflicting scaling values are counted as such, all other errors as generic |
| Controller.TraceIsDisciplined | cmd/kubedownscaler/main.go:311-337 | if everyone else is disciplined, the trace with this attempt in it is |
| Controller.AttemptKeepsTheOriginal | cmd/kubedownscaler/main.go:301-338 | after an attempt with any faults and conflicts the user's original is one scale-up away |
| Controller.CleanCopyIsHistory | cmd/kubedownscaler/main.go:321-324 | a clean copy is the object of its version in every reachable state |
| TimeSpans.CheckTimeSpans | internal/pkg/values/timespan.go:43-58 | agrees with the recursive reading of the list |
| TimeSpans.FirstSpanDecides | internal/pkg/values/timespan.go:43-58 | the first span that contains the instant or fails decides the list; it is outside exactly when all are |
| TimeSpans.MoreDefaultsSameAnswer | internal/pkg/values/timespan.go:152-180 | an answer given without a default stays when defaults are added |
| DayTimes.ParseDayTime | internal/pkg/values/dayTime.go:20-48 | accepts hours 0 to 24 and minutes 0 to 59 |
| DayTimes.PrintedDayTimeReads | internal/pkg/values/dayTime.go:50-58 | every legal time, 24:59 included, reads back from its print |
| Schedule.GetCurrentScaling | internal/pkg/values/scope.go:282-318 | the first forcing scope decides unless inactive, then the first scheduling scope; an inactive force counts only when nothing is scheduled |
| Schedule.DecisionIsUnique | internal/pkg/values/scope.go:282-318 | that description fits exactly one decision |
| Schedule.ScopeScaling | internal/pkg/values/scope.go:134-224 | a scope's own code gives a contest of two lists in which any failing list is incomplete and order does not matter |
| Schedule.SilentScopePassesOn | internal/pkg/values/scope.go:282-318 | a scope without lists has no say: the decision is that of the scopes below it |
| Schedule.InactiveForceHidesLower | internal/pkg/values/scope.go:298-301 | an inactive force ends the search for forces, so that schedules decide, or nothing |
| Schedule.SameListsSameDecision | internal/pkg/values/scope.go:282-318 | the decision depends on the six lists of each scope and the defaults only |
| Schedule.MoreDefaultsSameDecision | internal/pkg/values/scope.go:234-318 | a decision that is not incomplete, scope included, stays when defaults are added |
| Schedule.AddedDefaultKeepsDecision | internal/pkg/values/scope.go:234-279 | so does it when any scope sets a timezone or week frame that none resolved before |
| Schedule.LookupsTakeTheFirst | internal/pkg/values/scope.go:234-332 | the lookups of downscale replicas, upscale-excluded, timezone and both weekdays take the first scope with a value; without one upscale-excluded is off and the others fail |
| Schedule.GetExcludedWithScope | internal/pkg/values/scope.go:351-383 | the first set exclude list decides, a failing one means not excluded, otherwise any future exclude-until excludes |
| Schedule.IsInGracePeriod | internal/pkg/values/scope.go:399-436 | the first set grace period counts; an unreadable creation time is an error only if one is set |
| Schedule.SkipsExpire | internal/pkg/values/scope.go:369-436 | over non-decreasing instants the grace period and exclude-until are on for a prefix and off ever after |
| Weekly.TimesGoRoundTheClock | internal/pkg/values/timespan.go:245-252 | a time is in a range when going round the clock it comes within the length of the range, both ends cut at midnight |
| Weekly.WeekdaysGoRoundTheWeek | internal/pkg/values/timespan.go:236-243 | a weekday is in a range when going round the week it comes no later than the end |
| Weekly.ZoneIsAhead | internal/pkg/values/timespan.go:255-266 | a span in a zone contains an instant if and only if the same span in UTC contains the instant later by the offset |
| Weekly.CalendarMovesOn | internal/pkg/values/dayTime.go:15-18 | instant 0 is a Thursday at midnight UTC; a minute later is the next minute, a day later the same time of the next weekday |
| Weekly.SpanOfLocalTimes | internal/pkg/values/timespan.go:237-266 | which local weekdays and times of day a span contains, in every zone |
| Weekly.WorkingHours | internal/pkg/values/timespan.go:255-266 | Monday to Friday from 08:00 to 20:00 two hours ahead of UTC contains 2024-01-02T07:00Z |
| Weekly.DefaultsFillIn | internal/pkg/values/timespan.go:152-180 | what a span misses comes from the defaults; it fails exactly when they miss it too |
| Weekly.SpanEdges | internal/pkg/values/timespan.go:286-288 | the first and last instants of absolute, directional and boolean spans |
| Weekly.MembershipHasPeriodOneWeek | internal/pkg/values/timespan.go:255-266 | membership repeats after 10080 minutes |
| Weekly.WeeklyMeasure | internal/pkg/values/timespan.go:237-266 | any 10080 consecutive minutes at any start hold exactly the day length times the days of the frame, whether the zone and the weekdays are the span's own or defaults |
| Weekly.SwappedTimesAreDual | internal/pkg/values/scope.go:134-160 | a downtime equals the uptime with swapped times at every instant if and only if the times differ and the frame has seven days |
| Weekly.UntilAndFromAreDual | internal/pkg/values/timespan.go:355-369 | downtime until T equals uptime from T at every instant |
| Weekly.AdjacentSpansJoin | internal/pkg/values/timespan.go:286-288 | absolute spans that meet are disjoint and join |
| ScopeParser.GetScopeFromAnnotations | internal/pkg/values/scopeParser.go:142-299 | every field comes from its own annotation; any malformed one but upscale-excluded fails, and so do incompatible fields |
| ScopeParser.OnlyScopeKeysMatter | internal/pkg/values/scopeParser.go:142-299 | the scope depends on the twelve scope keys only |
| Decisions.ForceAnnotationsDecide | internal/pkg/values/scopeParser.go:219-240 | a force annotation whose list contains the instant decides over everything else |
| Decisions.ScheduleAnnotationsDecide | internal/pkg/values/scopeParser.go:150-192 | without forces, a downtime annotation scales down inside its list and up outside, an uptime the other way round, and the two periods contend |
| Decisions.OwnListsAreAnnotations | internal/pkg/values/scopeParser.go:150-240 | every list of the scope is what its own annotation parses to |
| Decisions.ExcludeAnnotationsDecide | internal/pkg/values/scopeParser.go:194-218 | an exclude annotation excludes while its list contains the instant, not when it fails; otherwise an exclude-until ahead does |
| Decisions.ExclusionPassesOn | internal/pkg/values/scope.go:351-383 | without the two annotations the lower scopes decide on exclusion |
| Decisions.SettingAnnotationsDecide | internal/pkg/values/scopeParser.go:242-291 | the downscale replicas and both switches are the annotation's, or else those of the lower scopes |
| Decisions.GraceAnnotationDecides | internal/pkg/values/scopeParser.go:256-266 | a workload is in the annotated grace period until that long after its creation |
| Decisions.ScopeFailsExactly | internal/pkg/values/scopeParser.go:142-299 | a scope fails to parse if and only if an annotation other than upscale-excluded is unreadable or two contradict each other |
| Decisions.NoOtherAnnotationDecides | internal/pkg/values/scopeParser.go:142-299 | each decision depends on its own annotations alone |
| Filter.GetExternallyScaled | internal/pkg/scalable/util.go:149-191 | the identifiers match exactly the targets of the listed ScaledObjects |
| Filter.IsWorkloadExternallyManaged | internal/pkg/scalable/util.go:124-127 | answers whether some listed manager scales the workload |
| Filter.FilterExcluded | internal/pkg/scalable/util.go:50-122 | returns the kept workloads and counts every dropped one as excluded in its namespace, once |
| Filter.KeptInOrder | internal/pkg/scalable/util.go:67-121 | the result is in list order without repeats and holds exactly the kept workloads |
| Filter.KeptExactly | internal/pkg/scalable/util.go:67-121 | which workload is kept: by its labels, its namespace, its name, its owners, and the listed ScaledObjects |
| Filter.LabelFilter | internal/pkg/scalable/util.go:261-276 | one included label is enough, no label is none |
| Filter.OwnerFilter | internal/pkg/scalable/util.go:336-349 | only a controlling owner of a supported kind drops a workload |
| Filter.ScalesExactly | internal/pkg/scalable/util.go:149-232 | what a ScaledObject names: group, kind and name with their defaults, whatever the version and the case of the kind |
| Filter.OnlyOwnNamespaceScales | internal/pkg/scalable/util.go:214-232 | only ScaledObjects of the workload's own namespace can scale it |
| Filter.WebhookFiltersAlike | internal/api/kubernetes/admission/workloadMutationHandler.go:144-174 | a listed workload is kept if and only if it passes the webhook's two tests |
| Metrics.NamespaceMetrics.Increment | internal/pkg/metrics/namespaceMetricsHolder.go:106-192 | raises the one counter, field by field, and no other |
| Metrics.NamespaceMetrics.MarkParsingNamespaceScopeError | internal/pkg/metrics/namespaceMetricsHolder.go:172-181 | sets the mark to 1 however often it is called |
| Scan.PlanWorkload | cmd/kubedownscaler/main.go:351-442 | grace period, exclusion, upscale on exclusion and schedule in that order decide what a scan wants |
| Scan.PlannedBySchedule | cmd/kubedownscaler/main.go:375-424 | what that makes of the object: nothing in the grace period, nothing or a scale-up when excluded, otherwise what the schedule says |
| Scan.FollowedRespectsExclusion | cmd/kubedownscaler/main.go:408-423 | the scan of an excluded workload never computes a scale-down, and does nothing unless excluded workloads are scaled up |
| Scan.DowntimeIsCarriedOut | cmd/kubedownscaler/main.go:351-442 | a workload with a downtime annotation is scaled down while its list contains the instant and up otherwise |
| Scan.ScanWorkload | cmd/kubedownscaler/main.go:351-442 | ends as planned and as the world around it makes it, takes only the steps of the planned decision and at most one write, none when the plan sends nothing; respects exclusion; undisturbed it leaves the server with what the plan makes of the object; keeps the original one scale-up away if the others do; raises exactly one counter unless it is silent |
| Scan.ScanKeepsTheOriginal | cmd/kubedownscaler/main.go:351-442 | a scan, whatever its plan, faults and conflicts, leaves an eligible object of disciplined others one scale-up away from its original |
| Scan.MarkFailedNamespaces | cmd/kubedownscaler/main.go:274-298 | sets the mark of every failed namespace with a holder and changes no other counter of any namespace |
| Scan.ScanCycle | cmd/kubedownscaler/main.go:186-271 | every kept workload is scanned once and ends as planned with its original kept, the others are left alone, and in every namespace each counter is the number of scans that ended that way, the savings are theirs, and with the silent scans every listed workload is accounted for, in whatever order the goroutines finish |
| Scan.TallyCounts | internal/pkg/metrics/namespaceMetricsHolder.go:106-192 | each counter rises by the scans that raise it, the savings by theirs, and the sum by the scans that are not silent |
| Scan.ScanIsCounted | cmd/kubedownscaler/main.go:351-442 | an unreadable scope, a skip and a missing namespace scope raise the error, the excluded counter and nothing |
| Webhook.MutateWorkload | internal/api/kubernetes/admission/workloadMutationHandler.go:471-561 | leaves the incoming object untouched and patches it to itself scaled down |
| Webhook.EvaluateScalingConditions | internal/api/kubernetes/admission/workloadMutationHandler.go:255-422 | patches exactly for a scale-down that works outside a dry run; which conditions fail |
| Webhook.EvaluateMutation | internal/api/kubernetes/admission/workloadMutationHandler.go:113-252 | patches exactly when the workload is admitted, not excluded, and wanted down; the answer is an error exactly when the ScaledObjects or a scope cannot be read, the scopes conflict, or the scale-down has no target or fails |
| Webhook.ScalingKeepsTheScope | internal/pkg/values/scopeParser.go:142-299 | the scaled object parses to the same scope |
| Webhook.ControllerAgrees | internal/api/kubernetes/admission/workloadMutationHandler.go:471-561 | a controller with the same scopes at the same instant wants the same of the patched object, unless it skips it for exactly the grace period, and sends an update exactly when it does not skip and the target does not settle |
| Webhook.ScanPatched | internal/api/kubernetes/admission/workloadMutationHandler.go:471-561 | the controller's scan of the patched object makes no write when the target settles, whatever the faults and the others do |

## Left out

- Listing and transport, leader election, certificates, HTTP serving, Prometheus registration, events and logs: input and output.
- JSON decoding and the encoding of patches: a patch is the object it leads to.
- The regular expressions, daylight saving time, RFC 3339 and duration texts: parameters of the model.
- Two dozen resource wrappers that differ only in the field they read: one of each family's shapes is modelled.
- Children of cron jobs: scaled by the same attempt, started asynchronously and not awaited by the cycle; only the lookup of the switch is modelled.
- Looking up ScaledObjects by resource name (`internal/api/kubernetes/client.go:532`): the list, or its failure, is given to the webhook.
- Floating-point resource sums: an integer request times an int32 difference.
- User edits of the scaled field while the original is on record: the annotation then no longer speaks of the user's value.
- Runs.ChangingTargets: starts from a count of -1 or more and, for an autoscaler, from within its bounds; autoscalers whose maximum moves are covered by Runs.UpAfterEditedMax and Cluster.MaximumExactly.
- Outside changes while the original is on record, other than those of `Laws.Change`.
- Metrics switched off: every counter method does nothing on a nil holder.
- Goroutines finish scans in any order but one scan's steps on the counters are not interleaved with another's: each counter step is one increment under a mutex, and increments commute. Writes to the server do interleave.
- Admission metrics: counters of the webhook's answers.
- An error text that happens to contain the conflict message is taken for a conflict by the source; the model tells errors apart by kind.
- Which spans a decision carries for the log, and the from and to values of a summary: used for messages only.
