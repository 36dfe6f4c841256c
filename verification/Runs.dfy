/** What happens to one object over many scans: fixed decisions, changing targets, and an autoscaler
    whose upper bound moves. */
module Runs {
  import opened Wrappers
  import opened Decimal
  import opened Replicas
  import opened Annotations
  import opened Scaling
  import opened Laws

  // ----- a fixed decision -----

  /** The object after n scans that all want the same. */
  function Scans(d: Decision, o: Object, n: nat): Object {
    if n == 0 then o else Apply(d, Scans(d, o, n - 1)).after
  }

  /** How many of n scans send an update. */
  function Updates(d: Decision, o: Object, n: nat): nat {
    if n == 0 then 0 else Updates(d, o, n - 1) + if SendsUpdate(d, Scans(d, o, n - 1)) then 1 else 0
  }

  predicate DecisionSettles(d: Decision, o: Object) {
    d.Lower? ==> Settles(o, d.target)
  }

  /** The first scan does all the work. */
  lemma {:induction false} OneUpdateAtMost(d: Decision, o: Object, n: nat)
    requires DecisionSettles(d, o)
    ensures n > 0 ==> Scans(d, o, n) == Apply(d, o).after
    ensures Updates(d, o, n) == if n > 0 && SendsUpdate(d, o) then 1 else 0
  {
    hide Apply, Settles;
    if n == 0 {
    } else {
      OneUpdateAtMost(d, o, n - 1);
      if n == 1 {
        assert Scans(d, o, 1) == Apply(d, Scans(d, o, 0)).after;
        assert Updates(d, o, 1) == Updates(d, o, 0) + if SendsUpdate(d, Scans(d, o, 0)) then 1 else 0;
      } else {
        SecondScanIsIdle(d, o);
      }
    }
  }

  lemma SecondScanIsIdle(d: Decision, o: Object)
    requires DecisionSettles(d, o)
    ensures !SendsUpdate(d, Apply(d, o).after) && Apply(d, Apply(d, o).after).after == Apply(d, o).after
  {
    hide Up, Down, Settles;
    if d.Lower? { DownTwiceIsDownOnce(o, d.target); } else { UpTwiceIsUpOnce(o); }
  }

  /** A target that does not settle is written again by every scan. */
  lemma {:induction false} UpdateEveryTime(target: Replicas, o: Object, n: nat)
    requires !Settles(o, target)
    ensures Updates(Lower(target), o, n) == n
    ensures !Settles(Scans(Lower(target), o, n), target)
  {
    hide Up, Down, Settles;
    if n == 0 {
    } else {
      UpdateEveryTime(target, o, n - 1);
      UnsettledStaysUnsettled(Scans(Lower(target), o, n - 1), target);
    }
  }

  lemma UnsettledStaysUnsettled(o: Object, target: Replicas)
    requires !Settles(o, target)
    ensures SendsUpdate(Lower(target), o) && !Settles(Down(o, target).after, target)
  {
    hide Parse, FromIntOrStr, Replicas.String;
    if o.spec.ReplicaScaled() {
      WrittenCountIsRead(o, target);
    }
  }

  predicate ReportsSavings(spec: Spec) {
    spec.Deployment? || spec.CronJob? || spec.DaemonSet?
  }

  /** What each scan reports as saved is what the first one reports, whether it is computed from the live
      value or from the recorded one. */
  lemma SavingIsConstant(o: Object, target: Replicas, k: nat)
    requires ReportsSavings(o.spec)
    requires SendsUpdate(Lower(target), o) && Settles(o, target)
    requires o.spec.Deployment? ==> o.spec.replicas.value >= UNDEFINED
    ensures Down(Scans(Lower(target), o, k), target).report ==
            Success(Summary(k == 0, Down(o, target).report.value.saved))
  {
    hide Down;
    if k > 0 {
      OneUpdateAtMost(Lower(target), o, k);
      SavingIsReadBack(o, target);
    }
  }

  lemma SavingIsReadBack(o: Object, target: Replicas)
    requires ReportsSavings(o.spec)
    requires SendsUpdate(Lower(target), o) && Settles(o, target)
    requires o.spec.Deployment? ==> o.spec.replicas.value >= UNDEFINED
    ensures Down(Down(o, target).after, target).report ==
            Success(Summary(false, Down(o, target).report.value.saved))
  {
    hide Parse, Replicas.String;
    if o.spec.Deployment? {
      hide Settles, Up;
      DownTwiceIsDownOnce(o, target);
      CountReads(o.spec.replicas.value);
      WrittenCountIsRead(o, target);
      assert RecordedText(Down(o, target).after) == Some(Itoa(o.spec.replicas.value));
    } else {
      RoundTrip(Boolean(false));
      assert RecordedText(Down(o, target).after) == Some(Boolean(false).String());
    }
  }

  /** For a Deployment that saving is the request of the replicas taken away. */
  lemma DeploymentSaving(o: Object, r0: Int32, target: Int32, k: nat)
    requires o.spec == Deployment(Some(r0)) && 0 <= target < r0
    ensures Down(Scans(Lower(Absolute(target)), o, k), Absolute(target)).report ==
            Success(Summary(k == 0, o.request * (r0 - target)))
  {
    hide Up, Scans;
    Wrap32Identity(r0 - target);
    SavingIsConstant(o, Absolute(target), k);
  }

  // ----- changing targets -----

  predicate Bounded(o: Object) {
    match o.spec
    case Hpa(Some(min), max) => 1 <= min <= max
    case _ => false
  }

  /** The objects whose count is stored as it is asked for: Deployments, ScaledObjects, and autoscalers within
      their bounds. */
  predicate Countable(o: Object) {
    && o.spec.ReplicaScaled() && GetReplicas(o).Success? && GetReplicas(o).value >= UNDEFINED
    && (o.spec.Hpa? ==> Bounded(o))
  }

  /** The targets that the resource takes; an autoscaler refuses a target of 0. */
  predicate Takes(o: Object, target: int) {
    target >= if o.spec.Hpa? then 1 else 0
  }

  function Taken(o: Object, targets: seq<Int32>): (taken: seq<Int32>)
    ensures forall t <- taken :: t in targets && Takes(o, t)
  {
    if targets == [] then []
    else
      var n := |targets| - 1;
      Taken(o, targets[..n]) + if Takes(o, targets[n]) then [targets[n]] else []
  }

  const UNLIMITED := MAX_INT32 + 1

  /** A count that is not set is above every target. */
  function Level(count: Int32): int {
    if count == UNDEFINED then UNLIMITED else count
  }

  function CountAt(level: int): Int32 {
    if MIN_INT32 <= level <= MAX_INT32 then level else UNDEFINED
  }

  /** The object after scale-downs to each of the targets in turn. */
  function Lowerings(o: Object, targets: seq<Int32>): Object {
    if targets == [] then o
    else Down(Lowerings(o, targets[..|targets| - 1]), Absolute(targets[|targets| - 1])).after
  }

  /** The least of a level and the targets. */
  function RunningMin(level: int, targets: seq<Int32>): (least: int)
    ensures least <= level && (forall i :: 0 <= i < |targets| ==> least <= targets[i])
    ensures least == level || least in targets
  {
    if targets == [] then level
    else
      var n := |targets| - 1;
      var before := RunningMin(level, targets[..n]);
      if targets[n] < before then targets[n] else before
  }

  /** Target k is below everything before it. */
  predicate Drops(level: int, targets: seq<Int32>, k: nat)
    requires k < |targets|
  {
    targets[k] < RunningMin(level, targets[..k])
  }

  /** How many of the targets are below everything before them. */
  function DropCount(level: int, targets: seq<Int32>): nat {
    if targets == [] then 0
    else
      var n := |targets| - 1;
      DropCount(level, targets[..n]) + if Drops(level, targets, n) then 1 else 0
  }

  function LastDrop(level: int, targets: seq<Int32>): (k: Option<nat>)
    ensures k.Some? ==> k.value < |targets|
  {
    if targets == [] then None
    else
      var n := |targets| - 1;
      if Drops(level, targets, n) then Some(n) else LastDrop(level, targets[..n])
  }

  lemma {:induction false} LastDropIsLast(level: int, targets: seq<Int32>)
    ensures LastDrop(level, targets).None? <==> DropCount(level, targets) == 0
    ensures LastDrop(level, targets).Some? ==> Drops(level, targets, LastDrop(level, targets).value)
    ensures forall k :: 0 <= k < |targets| && Drops(level, targets, k) ==>
              LastDrop(level, targets).Some? && k <= LastDrop(level, targets).value
  {
    hide RunningMin;
    if targets == [] {
    } else {
      var front := targets[..|targets| - 1];
      LastDropIsLast(level, front);
      forall k | 0 <= k < |front| ensures Drops(level, front, k) == Drops(level, targets, k) {
        assert front[..k] == targets[..k];
      }
    }
  }

  /** The level just before the last drop is the first level exactly when nothing else dropped. */
  lemma {:induction false} OneDropIsFirst(level: int, targets: seq<Int32>)
    ensures DropCount(level, targets) == 0 <==> RunningMin(level, targets) == level
    ensures LastDrop(level, targets).Some? ==>
              (DropCount(level, targets) == 1 <==>
               RunningMin(level, targets[..LastDrop(level, targets).value]) == level)
  {
    if targets == [] {
    } else {
      var front := targets[..|targets| - 1];
      OneDropIsFirst(level, front);
      if LastDrop(level, front).Some? {
        assert front[..LastDrop(level, front).value] == targets[..LastDrop(level, front).value];
      }
    }
  }

  /** An object lowered to a level with the count of another on record. */
  function LoweredTo(o: Object, level: int, recorded: int): Object
    requires o.spec.ReplicaScaled()
  {
    var lowered := SetReplicas(o, CountAt(level));
    if lowered.Success? then Record(lowered.value, Absolute(CountAt(recorded))) else o
  }

  /** The count is the least level seen, and the annotation holds the count just before the last strict drop, not
      the original. */
  lemma ChangingTargets(o: Object, targets: seq<Int32>)
    requires Countable(o) && forall i :: 0 <= i < |targets| ==> targets[i] >= 0
    ensures var level, taken := Level(GetReplicas(o).value), Taken(o, targets);
            Lowerings(o, targets) ==
            match LastDrop(level, taken)
            case None => o
            case Some(k) => LoweredTo(o, RunningMin(level, taken), RunningMin(level, taken[..k]))
  {
    hide GetReplicas, Taken, Lowerings;
    RefusedChangeNothing(o, targets);
    TakenTargets(o, Taken(o, targets));
  }

  lemma {:induction false} RefusedChangeNothing(o: Object, targets: seq<Int32>)
    requires o.spec.ReplicaScaled() && forall i :: 0 <= i < |targets| ==> targets[i] >= 0
    ensures Lowerings(o, targets) == Lowerings(o, Taken(o, targets))
    ensures SameFamily(Lowerings(o, targets).spec, o.spec)
  {
    hide Down;
    if targets == [] {
    } else {
      var n := |targets| - 1;
      var before := Lowerings(o, targets[..n]);
      RefusedChangeNothing(o, targets[..n]);
      FamilyKept(Lower(Absolute(targets[n])), before);
      if Takes(o, targets[n]) {
        assert Taken(o, targets)[..|Taken(o, targets)| - 1] == Taken(o, targets[..n]);
      } else {
        assert Taken(o, targets) == Taken(o, targets[..n]);
        RefusedLowering(before, targets[n]);
      }
    }
  }

  lemma RefusedLowering(o: Object, target: Int32)
    requires o.spec.Hpa? && target < 1
    ensures Down(o, Absolute(target)).after == o
  {
  }

  lemma {:induction false} TakenTargets(o: Object, targets: seq<Int32>)
    requires Countable(o) && forall t <- targets :: Takes(o, t)
    ensures var level := Level(GetReplicas(o).value);
            Lowerings(o, targets) ==
            match LastDrop(level, targets)
            case None => o
            case Some(k) => LoweredTo(o, RunningMin(level, targets), RunningMin(level, targets[..k]))
  {
    hide Down, LoweredTo, Takes, CountAt, GetReplicas, SetReplicas;
    if targets == [] {
    } else {
      var n := |targets| - 1;
      var front := targets[..n];
      var level := Level(GetReplicas(o).value);
      TakenTargets(o, front);
      LastDropIsLast(level, front);
      OneDropIsFirst(level, front);
      if LastDrop(level, front).None? {
        FirstLowering(o, targets[n]);
      } else {
        var k := LastDrop(level, front).value;
        assert front[..k] == targets[..k];
        LeastIsReachable(o, front);
        NextLowering(o, RunningMin(level, front), RunningMin(level, front[..k]), targets[n]);
      }
    }
  }

  /** A level that an object can be lowered to, or be at. */
  predicate Reachable(o: Object, level: int)
    requires Countable(o)
  {
    level == Level(GetReplicas(o).value) || (level < Level(GetReplicas(o).value) && Takes(o, level))
  }

  lemma LeastIsReachable(o: Object, targets: seq<Int32>)
    requires Countable(o) && forall t <- targets :: Takes(o, t)
    ensures var least := RunningMin(Level(GetReplicas(o).value), targets);
            0 <= least <= UNLIMITED && Reachable(o, least)
  {
    hide GetReplicas;
  }

  lemma FirstLowering(o: Object, target: Int32)
    requires Countable(o) && Takes(o, target)
    ensures var level := Level(GetReplicas(o).value);
            Down(o, Absolute(target)).after == if target < level then LoweredTo(o, target, level) else o
  {
    hide Parse;
  }

  lemma CountOfLowered(o: Object, level: int, recorded: int)
    requires Countable(o) && Reachable(o, level) && level <= MAX_INT32
    ensures SetReplicas(o, CountAt(level)).Success?
    ensures LoweredTo(o, level, recorded).spec.ReplicaScaled()
    ensures GetReplicas(LoweredTo(o, level, recorded)) == Success(CountAt(level))
    ensures RecordedText(LoweredTo(o, level, recorded)) == Some(Itoa(CountAt(recorded)))
  {
    ScanIntOfPrinted(CountAt(level), MIN_INT32, MAX_INT32);
  }

  lemma NextLowering(o: Object, least: Int32, recorded: int, target: Int32)
    requires Countable(o) && Reachable(o, least) && least >= 0 && Takes(o, target)
    ensures Down(LoweredTo(o, least, recorded), Absolute(target)).after ==
            if target < least then LoweredTo(o, target, least) else LoweredTo(o, least, recorded)
  {
    hide Parse, Replicas.String, GetReplicas, SetReplicas;
    CountOfLowered(o, least, recorded);
    CountOfLowered(o, if target < least then target else least, least);
    var before := LoweredTo(o, least, recorded);
    SetTwice(o, least, Absolute(CountAt(recorded)), target);
    LoweringSends(before, Absolute(target));
    if target < least {
      CountAfterDown(before, Absolute(target));
      RecordTwice(SetReplicas(o, target).value, Absolute(CountAt(recorded)), Absolute(least));
    }
  }

  /** Recording again replaces the earlier record and nothing else. */
  lemma RecordTwice(o: Object, first: Replicas, second: Replicas)
    ensures Record(Record(o, first), second) == Record(o, second)
  {
  }

  /** The count is read from a text that is printed the same again. */
  predicate PrintsAsItself(o: Object)
    requires Countable(o)
  {
    o.spec.ScaledObject? && PausedReplicasKey in o.annotations ==>
      GetReplicas(o).value != UNDEFINED && CanonicalDecimal(o.annotations[PausedReplicasKey])
  }

  /** A scale-up brings the original back exactly when the targets dropped at most once, and for a drop the count
      must be one that is written as it was read. */
  lemma RestoredIffOneDrop(o: Object, targets: seq<Int32>)
    requires Unannotated(o) && Countable(o) && forall i :: 0 <= i < |targets| ==> targets[i] >= 0
    ensures var drops := DropCount(Level(GetReplicas(o).value), Taken(o, targets));
            Up(Lowerings(o, targets)).after == o <==> drops == 0 || (drops == 1 && PrintsAsItself(o))
  {
    hide Up, Down, RunningMin, DropCount, LoweredTo, Takes, Taken, PrintsAsItself, GetReplicas, SetReplicas;
    var level, taken := Level(GetReplicas(o).value), Taken(o, targets);
    ChangingTargets(o, targets);
    LastDropIsLast(level, taken);
    OneDropIsFirst(level, taken);
    if LastDrop(level, taken).None? {
      UnannotatedStaysUp(o);
    } else {
      var k := LastDrop(level, taken).value;
      LeastIsReachable(o, taken);
      LeastIsReachable(o, taken[..k]);
      RaisingALevel(o, RunningMin(level, taken), RunningMin(level, taken[..k]));
    }
  }

  lemma RaisingALevel(o: Object, least: int, recorded: int)
    requires Unannotated(o) && Countable(o) && Reachable(o, least) && Reachable(o, recorded) && least <= MAX_INT32
    ensures Up(LoweredTo(o, least, recorded)).after == o <==>
            recorded == Level(GetReplicas(o).value) && PrintsAsItself(o)
  {
    hide Parse, Replicas.String, Itoa, ReplicasUp;
    var down := LoweredTo(o, least, recorded);
    var c := CountAt(recorded);
    CountOfLowered(o, least, recorded);
    RaisingACount(down, c);
    SetTwice(o, CountAt(least), Absolute(c), c);
    SetKeepsUnannotated(o, c);
    ForgetUndoesRecord(SetReplicas(o, c).value, Absolute(c));
    SettingACount(o, c);
  }

  /** Writing a count gives the same object back only if it is the count read, from a text that prints the same. */
  lemma SettingACount(o: Object, c: Int32)
    requires Countable(o) && (c == GetReplicas(o).value || Takes(o, c)) && SetReplicas(o, c).Success?
    requires o.spec.Hpa? ==> c <= o.spec.maxReplicas
    ensures SetReplicas(o, c).value == o <==> c == GetReplicas(o).value && PrintsAsItself(o)
  {
    ScanIntOfPrinted(c, MIN_INT32, MAX_INT32);
    if o.spec.ScaledObject? { SettingTheCountRead(o); }
  }

  // ----- an autoscaler whose upper bound moves -----

  /** What can happen to an autoscaler: a scan, or an outside edit of its upper bound that respects the
      current lower bound. */
  datatype Event = Scaled(d: Decision) | EditMax(max: Int32)

  function Happen(o: Object, e: Event): Object {
    match e
    case Scaled(d) => Apply(d, o).after
    case EditMax(max) =>
      if Bounded(o) && o.spec.minReplicas.value <= max then o.(spec := o.spec.(maxReplicas := max)) else o
  }

  function HappenAll(o: Object, events: seq<Event>): Object
    decreases |events|
  {
    if events == [] then o else HappenAll(Happen(o, events[0]), events[1..])
  }

  lemma ScanKeepsBounds(o: Object, d: Decision)
    requires Bounded(o)
    ensures Bounded(Apply(d, o).after)
    ensures Apply(d, o).after.spec.maxReplicas == o.spec.maxReplicas
  {
  }

  /** Whatever the annotation says, whatever the targets, and whether scans fail or not. */
  lemma {:induction false} BoundsHoldForever(o: Object, events: seq<Event>)
    requires Bounded(o)
    ensures Bounded(HappenAll(o, events))
    decreases |events|
  {
    if events == [] {
    } else {
      if events[0].Scaled? { ScanKeepsBounds(o, events[0].d); }
      BoundsHoldForever(Happen(o, events[0]), events[1..]);
    }
  }

  /** Down, an edit of the upper bound, and up again ends at the original or at the new upper bound,
      whichever is less. */
  lemma UpAfterEditedMax(o: Object, target: Replicas, max: Int32)
    requires Bounded(o) && Unannotated(o)
    requires Down(o, target).after.spec.Hpa? && Down(o, target).after.spec.minReplicas.Some?
    requires Down(o, target).after.spec.minReplicas.value <= max
    ensures var up := Up(Happen(Down(o, target).after, EditMax(max))).after;
            var original := o.spec.minReplicas.value;
            Unannotated(up) && up.spec == Hpa(Some(if original <= max then original else max), max)
  {
    hide Parse;
    var original := o.spec.minReplicas.value;
    CountReads(original);
    ScanKeepsBounds(o, Lower(target));
    if Lowers(o, target) {
      WrittenCountIsRead(o, target);
      var edited := Happen(Down(o, target).after, EditMax(max));
      assert OriginalOf(edited.annotations) == Recorded(Absolute(original));
    }
  }
}
