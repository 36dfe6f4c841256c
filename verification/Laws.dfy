/** The laws every family obeys, whatever the target: failures change nothing, an update is sent only
    when something changed, scaling down twice is scaling down once, and scaling up undoes scaling
    down. Where the source breaks a law for some inputs, the law carries the exact condition. */
module Laws {
  import opened Wrappers
  import opened Decimal
  import opened Replicas
  import opened Annotations
  import opened Scaling

  // ----- failures and skips -----

  lemma FailureChangesNothing(d: Decision, o: Object)
    ensures Apply(d, o).report.Failure? ==> Apply(d, o).after == o
  {
    hide Parse, FromIntOrStr, Replicas.String, Replicas.AsIntStr, GetReplicas, SetReplicas, SetValue;
  }

  lemma SkipChangesNothing(d: Decision, o: Object)
    ensures !SendsUpdate(d, o) ==> Apply(d, o).after == o
  {
    hide Parse, FromIntOrStr, Replicas.String, Replicas.AsIntStr, GetReplicas, SetReplicas, SetValue;
  }

  /** The inputs whose update rewrites what is already there: a count of -1 already recorded as its own
      original and lowered to -1 again, or a limit that does not read back as the target it holds. */
  predicate RewritesInPlace(o: Object, target: Replicas) {
    match o.spec
    case Deployment(replicas) =>
      target == Absolute(UNDEFINED) && replicas == Some(UNDEFINED) && RecordedText(o) == Some("-1")
    case ScaledObject =>
      target == Absolute(UNDEFINED) && PausedReplicasKey !in o.annotations && RecordedText(o) == Some("-1")
    case Hpa(min, max) =>
      target.Absolute? && target.n >= 1 && min == Some(UNDEFINED) && max == UNDEFINED && RecordedText(o) == Some("-1")
    case DisruptionBudget(_, _) =>
      Limit(o.spec) == Some(target.AsIntStr()) &&
      FromIntOrStr(target.AsIntStr()).String() != target.String() &&
      RecordedText(o) == Some(FromIntOrStr(target.AsIntStr()).String())
    case _ => false
  }

  function RecordedText(o: Object): Option<string> {
    if OriginalReplicasKey in o.annotations then Some(o.annotations[OriginalReplicasKey]) else None
  }

  /** An update is needed exactly when the object changed, outside those inputs. */
  lemma UpdateMeansChange(d: Decision, o: Object)
    ensures (SendsUpdate(d, o) <==> Apply(d, o).after != o) <==>
            !(d.Lower? && RewritesInPlace(o, d.target))
  {
    hide Parse, FromIntOrStr, Replicas.String, Replicas.AsIntStr;
    SkipChangesNothing(d, o);
    if d.Raise? {
      if SendsUpdate(d, o) {
        assert OriginalReplicasKey in o.annotations && OriginalReplicasKey !in Up(o).after.annotations;
      }
    } else if o.spec.ReplicaScaled() {
      if SendsUpdate(d, o) { LoweringChanges(o, d.target); }
    } else if o.spec.DisruptionBudget? {
      if SendsUpdate(d, o) { BudgetChanges(o, d.target); }
    } else {
      SwitchingChanges(o, d.target);
    }
  }

  lemma SwitchingChanges(o: Object, target: Replicas)
    requires !o.spec.ReplicaScaled() && !o.spec.DisruptionBudget?
    ensures SendsUpdate(Lower(target), o) ==> Down(o, target).after.spec != o.spec
  {
    hide OriginalOf;
  }

  lemma LoweringChanges(o: Object, target: Replicas)
    requires o.spec.ReplicaScaled() && ReplicasDown(o, target).UpdateNeeded()
    ensures ReplicasDown(o, target).after != o <==> !RewritesInPlace(o, target)
  {
    hide Parse;
    assert Itoa(-1) == "-1" by { assert Digits(1) == "1"; }
    var c, lowered := GetReplicas(o).value, SetReplicas(o, target.n).value;
    assert ReplicasDown(o, target).after == Record(lowered, Absolute(c));
    ScanIntOfPrinted(target.n, MIN_INT32, MAX_INT32);
    ScanIntOfPrinted(c, MIN_INT32, MAX_INT32);
    ScanIntOfPrinted(UNDEFINED, MIN_INT32, MAX_INT32);
    if RewritesInPlace(o, target) {
      assert Record(lowered, Absolute(c)).annotations == o.annotations;
    }
  }

  lemma BudgetChanges(o: Object, target: Replicas)
    requires o.spec.DisruptionBudget? && BudgetDown(o, target).UpdateNeeded()
    ensures BudgetDown(o, target).after != o <==> !RewritesInPlace(o, target)
  {
    hide FromIntOrStr, Replicas.String, Replicas.AsIntStr;
    if RewritesInPlace(o, target) {
      assert BudgetDown(o, target).after.annotations == o.annotations;
    }
  }

  predicate SameFamily(a: Spec, b: Spec) {
    (a.Deployment? <==> b.Deployment?) && (a.ScaledObject? <==> b.ScaledObject?) && (a.Hpa? <==> b.Hpa?) &&
    (a.CronJob? <==> b.CronJob?) && (a.Service? <==> b.Service?) && (a.Ingress? <==> b.Ingress?) &&
    (a.DaemonSet? <==> b.DaemonSet?)
  }

  lemma FamilyKept(d: Decision, o: Object)
    ensures SameFamily(Apply(d, o).after.spec, o.spec)
  {
    hide Parse, FromIntOrStr, Replicas.String, Replicas.AsIntStr, GetReplicas, OriginalOf;
  }

  // ----- annotations the scaler does not own -----

  function Annotate(o: Object, key: Key, text: string): Object {
    o.(annotations := o.annotations[key := text])
  }

  function Moved(outcome: Outcome, key: Key, text: string): Outcome {
    outcome.(after := Annotate(outcome.after, key, text))
  }

  lemma StoredKeysCommute(o: Object, r: Replicas, key: Key, text: string)
    requires key.Foreign()
    ensures OriginalOf(Annotate(o, key, text).annotations) == OriginalOf(o.annotations)
    ensures Record(Annotate(o, key, text), r) == Annotate(Record(o, r), key, text)
    ensures Forget(Annotate(o, key, text)) == Annotate(Forget(o), key, text)
  {
    hide Parse;
    UpdatesCommute(o.annotations, r.String(), key, text);
  }

  lemma UpdatesCommute(annotations: Annotations, record: string, key: Key, text: string)
    requires key.Foreign()
    ensures annotations[key := text][OriginalReplicasKey := record] ==
            annotations[OriginalReplicasKey := record][key := text]
    ensures annotations[key := text] - {OriginalReplicasKey} == (annotations - {OriginalReplicasKey})[key := text]
  {
  }

  lemma ReplicasCommute(o: Object, n: Int32, key: Key, text: string)
    requires key.Foreign() && o.spec.ReplicaScaled()
    ensures forall difference: int :: SavedBy(Annotate(o, key, text), difference) == SavedBy(o, difference)
    ensures GetReplicas(Annotate(o, key, text)) == GetReplicas(o)
    ensures match SetReplicas(o, n)
            case Failure(e) => SetReplicas(Annotate(o, key, text), n) == Failure(e)
            case Success(o') => SetReplicas(Annotate(o, key, text), n) == Success(Annotate(o', key, text))
  {
    if o.spec.ScaledObject? {
      var a := Annotate(o, key, text);
      assert a.annotations - {PausedReplicasKey} == (o.annotations - {PausedReplicasKey})[key := text];
      assert a.annotations[PausedReplicasKey := Itoa(n)] == o.annotations[PausedReplicasKey := Itoa(n)][key := text];
    }
  }

  lemma ReplicasUpIgnores(o: Object, key: Key, text: string)
    requires key.Foreign() && o.spec.ReplicaScaled()
    ensures ReplicasUp(Annotate(o, key, text)) == Moved(ReplicasUp(o), key, text)
  {
    hide Parse, SetReplicas, GetReplicas;
    StoredKeysCommute(o, Boolean(false), key, text);
    ReplicasCommute(o, 0, key, text);
    match OriginalOf(o.annotations)
    case Recorded(Absolute(n)) =>
      ReplicasCommute(o, n, key, text);
      if GetReplicas(o).Success? && SetReplicas(o, n).Success? {
        StoredKeysCommute(SetReplicas(o, n).value, Boolean(false), key, text);
      }
    case _ =>
  }

  lemma ReplicasDownIgnores(o: Object, target: Replicas, key: Key, text: string)
    requires key.Foreign() && o.spec.ReplicaScaled()
    ensures ReplicasDown(Annotate(o, key, text), target) == Moved(ReplicasDown(o, target), key, text)
  {
    hide SetReplicas, GetReplicas, SavedBy, OriginalOf, Record, Forget;
    StoredKeysCommute(o, target, key, text);
    if target.Absolute? {
      ReplicasCommute(o, target.n, key, text);
      if GetReplicas(o).Success? && SetReplicas(o, target.n).Success? {
        var current, lowered := Absolute(GetReplicas(o).value), SetReplicas(o, target.n).value;
        StoredKeysCommute(lowered, current, key, text);
      }
    }
  }

  lemma SuspendIgnores(o: Object, key: Key, text: string)
    requires key.Foreign() && o.spec.CronJob?
    ensures SuspendUp(Annotate(o, key, text)) == Moved(SuspendUp(o), key, text)
    ensures SuspendDown(Annotate(o, key, text)) == Moved(SuspendDown(o), key, text)
  {
    hide Parse, FromIntOrStr;
    StoredKeysCommute(o, Boolean(false), key, text);
    StoredKeysCommute(o.(spec := CronJob(true)), Boolean(o.spec.suspend), key, text);
    StoredKeysCommute(o.(spec := CronJob(false)), Boolean(false), key, text);
  }

  lemma SelectorIgnores(o: Object, key: Key, text: string)
    requires key.Foreign() && o.spec.DaemonSet?
    ensures SelectorUp(Annotate(o, key, text)) == Moved(SelectorUp(o), key, text)
    ensures SelectorDown(Annotate(o, key, text)) == Moved(SelectorDown(o), key, text)
  {
    hide Parse, FromIntOrStr;
    StoredKeysCommute(o, Boolean(false), key, text);
    var labels := o.spec.nodeSelector;
    StoredKeysCommute(o.(spec := DaemonSet(labels - {MATCH_NONE})), Boolean(false), key, text);
    StoredKeysCommute(o.(spec := DaemonSet(labels[MATCH_NONE := "true"])), Boolean(false), key, text);
  }

  lemma SetValueCommutes(o: Object, r: Replicas, key: Key, text: string)
    requires o.spec.ValueScaled()
    ensures GetValue(Annotate(o, key, text)) == GetValue(o)
    ensures match SetValue(o, r)
            case Failure(e) => SetValue(Annotate(o, key, text), r) == Failure(e)
            case Success(o') => SetValue(Annotate(o, key, text), r) == Success(Annotate(o', key, text))
  {
  }

  lemma ValueUpIgnores(o: Object, key: Key, text: string)
    requires key.Foreign() && o.spec.ValueScaled()
    ensures ValueUp(Annotate(o, key, text)) == Moved(ValueUp(o), key, text)
  {
    hide Parse, SetValue, GetValue;
    StoredKeysCommute(o, Boolean(false), key, text);
    SetValueCommutes(o, Boolean(false), key, text);
    if OriginalOf(o.annotations).Recorded? {
      var r := OriginalOf(o.annotations).value;
      SetValueCommutes(o, r, key, text);
      if SetValue(o, r).Success? {
        StoredKeysCommute(SetValue(o, r).value, r, key, text);
      }
    }
  }

  lemma ValueDownIgnores(o: Object, key: Key, text: string)
    requires key.Foreign() && o.spec.ValueScaled()
    ensures ValueDown(Annotate(o, key, text)) == Moved(ValueDown(o), key, text)
  {
    hide Parse, SetValue, GetValue, DownValue;
    var target := Text(DownValue(o.spec));
    StoredKeysCommute(o, Boolean(false), key, text);
    SetValueCommutes(o, target, key, text);
    if GetValue(o).Success? && SetValue(o, target).Success? {
      StoredKeysCommute(SetValue(o, target).value, Text(GetValue(o).value), key, text);
    }
  }

  lemma BudgetUpIgnores(o: Object, key: Key, text: string)
    requires key.Foreign() && o.spec.DisruptionBudget?
    ensures BudgetUp(Annotate(o, key, text)) == Moved(BudgetUp(o), key, text)
  {
    hide Parse, Limit, SetLimit, Replicas.AsIntStr;
    StoredKeysCommute(o, Boolean(false), key, text);
    if OriginalOf(o.annotations).Recorded? && Limit(o.spec).Some? {
      var r := OriginalOf(o.annotations).value;
      StoredKeysCommute(o.(spec := SetLimit(o.spec, r.AsIntStr())), r, key, text);
    }
  }

  lemma BudgetDownIgnores(o: Object, target: Replicas, key: Key, text: string)
    requires key.Foreign() && o.spec.DisruptionBudget?
    ensures BudgetDown(Annotate(o, key, text), target) == Moved(BudgetDown(o, target), key, text)
  {
    hide Record, Limit, SetLimit, FromIntOrStr, Replicas.String, Replicas.AsIntStr;
    if Limit(o.spec).Some? {
      var lowered := o.(spec := SetLimit(o.spec, target.AsIntStr()));
      StoredKeysCommute(lowered, FromIntOrStr(Limit(o.spec).value), key, text);
    }
  }

  /** Scaling neither reads nor writes any other annotation. */
  lemma ScalingIgnoresForeignKeys(d: Decision, o: Object, key: Key, text: string)
    requires key.Foreign()
    ensures Apply(d, Annotate(o, key, text)) == Moved(Apply(d, o), key, text)
  {
    hide Parse, FromIntOrStr, ReplicasUp, ReplicasDown, SuspendUp, SuspendDown, ValueUp, ValueDown,
         SelectorUp, SelectorDown, BudgetUp, BudgetDown;
    if o.spec.ReplicaScaled() {
      ReplicasUpIgnores(o, key, text);
      if d.Lower? { ReplicasDownIgnores(o, d.target, key, text); }
    } else if o.spec.CronJob? {
      SuspendIgnores(o, key, text);
    } else if o.spec.ValueScaled() {
      ValueUpIgnores(o, key, text);
      ValueDownIgnores(o, key, text);
    } else if o.spec.DaemonSet? {
      SelectorIgnores(o, key, text);
    } else {
      BudgetUpIgnores(o, key, text);
      if d.Lower? { BudgetDownIgnores(o, d.target, key, text); }
    }
  }

  /** Every annotation that scaling does not own keeps its text, or its absence. */
  lemma ForeignAnnotationsStay(d: Decision, o: Object, key: Key)
    requires key.Foreign()
    ensures SameAt(Apply(d, o).after.annotations, o.annotations, key)
  {
    hide Parse, FromIntOrStr, Replicas.String, Replicas.AsIntStr, OriginalOf, SameAt;
    if d.Raise? { RaisingKeeps(o, key); } else { LoweringKeeps(o, d.target, key); }
  }

  lemma RaisingKeeps(o: Object, key: Key)
    requires key.Foreign()
    ensures SameAt(Up(o).after.annotations, o.annotations, key)
  {
    hide Parse, Replicas.AsIntStr, Limit, SetLimit;
  }

  lemma LoweringKeeps(o: Object, target: Replicas, key: Key)
    requires key.Foreign()
    ensures SameAt(Down(o, target).after.annotations, o.annotations, key)
  {
    hide FromIntOrStr, Replicas.String, Replicas.AsIntStr, OriginalOf, Limit, SetLimit, ReplicasDown;
    if o.spec.ReplicaScaled() { CountLoweringKeeps(o, target, key); }
  }

  lemma CountLoweringKeeps(o: Object, target: Replicas, key: Key)
    requires key.Foreign() && o.spec.ReplicaScaled()
    ensures SameAt(ReplicasDown(o, target).after.annotations, o.annotations, key)
  {
    hide Replicas.String, OriginalOf, GetReplicas, SetReplicas, SavedBy;
    if target.Absolute? { SettingKeeps(o, target.n, key); }
  }

  lemma SettingKeeps(o: Object, n: Int32, key: Key)
    requires key.Foreign() && o.spec.ReplicaScaled()
    ensures SetReplicas(o, n).Success? ==> SameAt(SetReplicas(o, n).value.annotations, o.annotations, key)
  {
  }

  // ----- changes that leave the scaled part alone -----

  /** What others change on an object while it is scaled down: an annotation, the resources its pods request, a
      label of its node selector, or an autoscaler's maximum. */
  datatype Change =
    | Annotation(key: Key, text: string)
    | Request(request: nat)
    | NodeLabel(name: string, value: Option<string>)
    | Maximum(max: Int32)
  {
    /** Not what scaling itself writes. */
    predicate Outside() {
      (Annotation? ==> key.Foreign()) && (NodeLabel? ==> name != MATCH_NONE)
    }
  }

  function Adjusted(o: Object, c: Change): Object {
    match c
    case Annotation(key, text) => Annotate(o, key, text)
    case Request(request) => o.(request := request)
    case NodeLabel(name, value) =>
      if !o.spec.DaemonSet? then o
      else if value.Some? then o.(spec := DaemonSet(o.spec.nodeSelector[name := value.value]))
      else o.(spec := DaemonSet(o.spec.nodeSelector - {name}))
    case Maximum(max) =>
      if o.spec.Hpa? then o.(spec := Hpa(o.spec.minReplicas, max)) else o
  }

  /** Scaling commutes with all of them but the maximum. */
  lemma ScalingIgnoresChange(d: Decision, o: Object, c: Change)
    requires c.Outside() && !c.Maximum?
    ensures Apply(d, Adjusted(o, c)).after == Adjusted(Apply(d, o).after, c)
  {
    hide Parse, FromIntOrStr, Apply;
    match c
    case Annotation(key, text) => ScalingIgnoresForeignKeys(d, o, key, text);
    case Request(request) => ScalingIgnoresRequest(d, o, request);
    case NodeLabel(name, value) =>
      FamilyKept(d, o);
      if o.spec.DaemonSet? { SelectorIgnoresLabel(d, o, name, value); }
  }

  lemma ScalingIgnoresRequest(d: Decision, o: Object, request: nat)
    ensures Apply(d, o.(request := request)).after == Apply(d, o).after.(request := request)
  {
    hide Up, Down;
    if d.Raise? { RaisingIgnoresRequest(o, request); } else { LoweringIgnoresRequest(o, d.target, request); }
  }

  lemma RaisingIgnoresRequest(o: Object, request: nat)
    ensures Up(o.(request := request)).after == Up(o).after.(request := request)
  {
    hide Parse, Replicas.String, Replicas.AsIntStr, SetPaused, Limit, SetLimit;
  }

  lemma LoweringIgnoresRequest(o: Object, target: Replicas, request: nat)
    ensures Down(o.(request := request), target).after == Down(o, target).after.(request := request)
  {
    hide OriginalOf, FromIntOrStr, Replicas.String, Replicas.AsIntStr, Limit, SetLimit, ReplicasDown;
    if o.spec.ReplicaScaled() { CountLoweringIgnoresRequest(o, target, request); }
  }

  lemma CountLoweringIgnoresRequest(o: Object, target: Replicas, request: nat)
    requires o.spec.ReplicaScaled()
    ensures ReplicasDown(o.(request := request), target).after == ReplicasDown(o, target).after.(request := request)
  {
    hide OriginalOf, Replicas.String, SetPaused;
  }

  lemma SelectorIgnoresLabel(d: Decision, o: Object, name: string, value: Option<string>)
    requires o.spec.DaemonSet? && name != MATCH_NONE
    ensures Apply(d, Adjusted(o, NodeLabel(name, value))).after == Adjusted(Apply(d, o).after, NodeLabel(name, value))
  {
    hide Parse;
    var labels := o.spec.nodeSelector;
    var adjusted := Adjusted(o, NodeLabel(name, value)).spec.nodeSelector;
    assert MATCH_NONE in adjusted <==> MATCH_NONE in labels;
    if value.Some? {
      assert adjusted - {MATCH_NONE} == (labels - {MATCH_NONE})[name := value.value];
      assert adjusted[MATCH_NONE := "true"] == labels[MATCH_NONE := "true"][name := value.value];
    } else {
      assert adjusted - {MATCH_NONE} == (labels - {MATCH_NONE}) - {name};
      assert adjusted[MATCH_NONE := "true"] == labels[MATCH_NONE := "true"] - {name};
    }
  }

  // ----- scaling down twice -----

  /** A scale-down that reaches the point of writing a replica count, and the count it writes. */
  predicate Lowers(o: Object, target: Replicas)
    requires o.spec.ReplicaScaled()
  {
    target.Absolute? && GetReplicas(o).Success? &&
    (GetReplicas(o).value == UNDEFINED || GetReplicas(o).value > target.n) &&
    (o.spec.Hpa? ==> target.n >= 1)
  }

  function Written(o: Object, target: Int32): Int32
    requires o.spec.ReplicaScaled()
  {
    if o.spec.Hpa? && target > o.spec.maxReplicas then o.spec.maxReplicas else target
  }

  /** After one scale-down the next one with the same target sends nothing, unless the count just
      written is -1, which is read as "not set", or the limit just written does not read back. */
  predicate Settles(o: Object, target: Replicas) {
    match o.spec
    case DisruptionBudget(_, _) =>
      (Limit(o.spec).Some? && FromIntOrStr(Limit(o.spec).value).String() != target.String()) ==>
        FromIntOrStr(target.AsIntStr()).String() == target.String()
    case Deployment(_) => Lowers(o, target) ==> Written(o, target.n) != UNDEFINED
    case ScaledObject => Lowers(o, target) ==> Written(o, target.n) != UNDEFINED
    case Hpa(_, _) => Lowers(o, target) ==> Written(o, target.n) != UNDEFINED
    case _ => true
  }

  lemma DownTwiceIsDownOnce(o: Object, target: Replicas)
    ensures Settles(o, target) <==> !SendsUpdate(Lower(target), Down(o, target).after)
    ensures Settles(o, target) ==> Down(Down(o, target).after, target).after == Down(o, target).after
  {
    hide Parse, FromIntOrStr;
    if o.spec.ReplicaScaled() {
      ReplicasSettle(o, target);
    } else if o.spec.DisruptionBudget? {
      BudgetSettles(o, target);
    } else {
      ValuesSettle(o, target);
    }
    SkipChangesNothing(Lower(target), Down(o, target).after);
  }

  lemma ReplicasSettle(o: Object, target: Replicas)
    requires o.spec.ReplicaScaled()
    ensures Settles(o, target) <==> !ReplicasDown(ReplicasDown(o, target).after, target).UpdateNeeded()
  {
    LoweringSends(o, target);
    if Lowers(o, target) {
      WrittenCountIsRead(o, target);
      var down := ReplicasDown(o, target).after;
      assert Lowers(down, target) <==> Written(o, target.n) == UNDEFINED;
      LoweringSends(down, target);
    }
  }

  lemma LoweringSends(o: Object, target: Replicas)
    requires o.spec.ReplicaScaled()
    ensures ReplicasDown(o, target).UpdateNeeded() <==> Lowers(o, target)
    ensures !Lowers(o, target) ==> ReplicasDown(o, target).after == o
  {
  }

  lemma BudgetSettles(o: Object, target: Replicas)
    requires o.spec.DisruptionBudget?
    ensures Settles(o, target) <==> !BudgetDown(BudgetDown(o, target).after, target).UpdateNeeded()
  {
  }

  lemma ValuesSettle(o: Object, target: Replicas)
    requires !o.spec.ReplicaScaled() && !o.spec.DisruptionBudget?
    ensures !SendsUpdate(Lower(target), Down(o, target).after)
  {
  }

  lemma WrittenCountIsRead(o: Object, target: Replicas)
    requires o.spec.ReplicaScaled() && Lowers(o, target)
    ensures var down := ReplicasDown(o, target).after;
            && GetReplicas(down) == Success(Written(o, target.n))
            && RecordedText(down) == Some(Itoa(GetReplicas(o).value))
            && down.spec == SetReplicas(o, target.n).value.spec
  {
    ScanIntOfPrinted(target.n, MIN_INT32, MAX_INT32);
  }

  lemma UpTwiceIsUpOnce(o: Object)
    ensures !SendsUpdate(Raise, Up(o).after) && Up(Up(o).after).after == Up(o).after
  {
    hide Parse, FromIntOrStr;
    SkipChangesNothing(Raise, o);
    if SendsUpdate(Raise, o) {
      assert Unannotated(Up(o).after);
    } else {
      assert Up(o).after == o;
    }
    SkipChangesNothing(Raise, Up(o).after);
  }

  lemma UnannotatedStaysUp(o: Object)
    requires Unannotated(o)
    ensures !SendsUpdate(Raise, o) && Up(o).after == o
  {
  }

  /** Counts and percentages from an annotation or a flag always settle; the only parsed targets that
      do not are -1 for a count, and booleans and texts for a limit. */
  lemma ParsedTargetsSettle(o: Object, target: Replicas)
    requires Storable(target)
    requires target.Absolute? ==> target.n >= 0
    requires o.spec.DisruptionBudget? ==> LimitKind(target)
    requires o.spec.Hpa? ==> o.spec.maxReplicas >= 0
    ensures Settles(o, target)
  {
    if o.spec.DisruptionBudget? { LimitReadsBack(target); }
  }

  // ----- scaling up undoes scaling down -----

  /** The unannotated objects that a scale-down to `target` and a scale-up leave as they were. */
  predicate Restorable(o: Object, target: Replicas) {
    match o.spec
    case Deployment(_) =>
      Lowers(o, target) ==> GetReplicas(o).value >= UNDEFINED
    case ScaledObject =>
      Lowers(o, target) ==>
        PausedReplicasKey in o.annotations ==>
          GetReplicas(o).value >= 0 && CanonicalDecimal(o.annotations[PausedReplicasKey])
    case Hpa(_, max) =>
      Lowers(o, target) ==> 1 <= GetReplicas(o).value <= max
    case Service(serviceType) =>
      serviceType == "ClusterIP" || serviceType == "LoadBalancer"
    case Ingress(className) =>
      className.Some? ==> className.value == INGRESS_CLASS || Verbatim(className.value)
    case DisruptionBudget(_, _) =>
      Limit(o.spec).Some? ==>
        StorableLimit(Limit(o.spec).value) ||
        FromIntOrStr(Limit(o.spec).value).String() == target.String()
    case _ => true
  }

  lemma UpUndoesDown(o: Object, target: Replicas)
    requires Unannotated(o)
    ensures Restorable(o, target) <==> Up(Down(o, target).after).after == o
  {
    FamilyKept(Lower(target), o);
    hide ReplicasUp, ReplicasDown, SuspendUp, SuspendDown, ValueUp, ValueDown, SelectorUp, SelectorDown,
         BudgetUp, BudgetDown;
    match o.spec
    case Deployment(_) => ReplicasRestored(o, target);
    case ScaledObject => ReplicasRestored(o, target);
    case Hpa(_, _) => ReplicasRestored(o, target);
    case CronJob(_) => SuspendRestored(o);
    case Service(_) => ValueRestored(o);
    case Ingress(_) => ValueRestored(o);
    case DaemonSet(_) => SelectorRestored(o);
    case DisruptionBudget(_, _) => BudgetRestored(o, target);
  }

  lemma ForgetUndoesRecord(o: Object, r: Replicas)
    requires Unannotated(o)
    ensures Forget(Record(o, r)) == o
  {
  }

  lemma ReplicasRestored(o: Object, target: Replicas)
    requires Unannotated(o) && o.spec.ReplicaScaled()
    ensures Restorable(o, target) <==> ReplicasUp(ReplicasDown(o, target).after).after == o
  {
    LoweringSends(o, target);
    if Lowers(o, target) {
      match o.spec
      case ScaledObject => PausedRestored(o, target);
      case Deployment(_) => CountRestored(o, target);
      case Hpa(_, _) => CountRestored(o, target);
    } else {
      assert Unannotated(o);
    }
  }

  /** What a scale-up makes of a recorded count. */
  lemma RaisingACount(down: Object, c: Int32)
    requires down.spec.ReplicaScaled() && GetReplicas(down).Success? && RecordedText(down) == Some(Itoa(c))
    ensures ReplicasUp(down) ==
            if c < UNDEFINED then Failed(down, BadOriginal)
            else
              match SetReplicas(down, c)
              case Failure(e) => Failed(down, e)
              case Success(raised) => Changed(Forget(raised), 0)
  {
    hide Parse, SetReplicas, GetReplicas;
    CountReads(c);
  }

  /** Setting a count twice, with a record in between, is setting the second one. */
  lemma SetTwice(o: Object, first: Int32, r: Replicas, second: Int32)
    requires o.spec.ReplicaScaled() && SetReplicas(o, first).Success?
    ensures SetReplicas(Record(SetReplicas(o, first).value, r), second) ==
            match SetReplicas(o, second)
            case Failure(e) => Failure(e)
            case Success(raised) => Success(Record(raised, r))
  {
    hide Replicas.String, SetPaused;
    PausedTwice(o.annotations, first, r.String(), second);
  }

  lemma PausedTwice(annotations: Annotations, first: Int32, text: string, second: Int32)
    ensures SetPaused(SetPaused(annotations, first)[OriginalReplicasKey := text], second) ==
            SetPaused(annotations, second)[OriginalReplicasKey := text]
  {
    hide Itoa;
    var written := SetPaused(annotations, first)[OriginalReplicasKey := text];
    if second == UNDEFINED {
      assert written - {PausedReplicasKey} == (annotations - {PausedReplicasKey})[OriginalReplicasKey := text];
    } else {
      assert written[PausedReplicasKey := Itoa(second)] ==
             annotations[PausedReplicasKey := Itoa(second)][OriginalReplicasKey := text];
    }
  }

  lemma SetKeepsUnannotated(o: Object, n: Int32)
    requires o.spec.ReplicaScaled() && SetReplicas(o, n).Success? && Unannotated(o)
    ensures Unannotated(SetReplicas(o, n).value)
  {
  }

  lemma CountAfterDown(o: Object, target: Replicas)
    requires o.spec.ReplicaScaled() && Lowers(o, target)
    ensures target.Absolute? && GetReplicas(o).Success? && SetReplicas(o, target.n).Success?
    ensures ReplicasDown(o, target).after.spec.ReplicaScaled()
    ensures ReplicasDown(o, target).after == Record(SetReplicas(o, target.n).value, Absolute(GetReplicas(o).value))
  {
  }

  /** What a scale-up makes of a lowered count: what setting the original count makes of the original object. */
  lemma CountAfterDownAndUp(o: Object, target: Replicas)
    requires Unannotated(o) && o.spec.ReplicaScaled() && Lowers(o, target)
    ensures var c, down := GetReplicas(o).value, ReplicasDown(o, target).after;
            ReplicasUp(down) ==
            if c < UNDEFINED then Failed(down, BadOriginal)
            else
              match SetReplicas(o, c)
              case Failure(e) => Failed(down, e)
              case Success(raised) => Changed(raised, 0)
  {
    hide SetReplicas, GetReplicas, ReplicasUp, ReplicasDown, Replicas.String, Lowers;
    CountAfterDown(o, target);
    WrittenCountIsRead(o, target);
    var c := GetReplicas(o).value;
    RaisingACount(ReplicasDown(o, target).after, c);
    SetTwice(o, target.n, Absolute(c), c);
    if SetReplicas(o, c).Success? {
      SetKeepsUnannotated(o, c);
      ForgetUndoesRecord(SetReplicas(o, c).value, Absolute(c));
    }
  }

  lemma LoweredIsAnnotated(o: Object, target: Replicas)
    requires Unannotated(o) && o.spec.ReplicaScaled() && Lowers(o, target)
    ensures ReplicasDown(o, target).after != o
  {
    WrittenCountIsRead(o, target);
  }

  lemma CountRestored(o: Object, target: Replicas)
    requires Unannotated(o) && (o.spec.Deployment? || o.spec.Hpa?) && Lowers(o, target)
    ensures Restorable(o, target) <==> ReplicasUp(ReplicasDown(o, target).after).after == o
  {
    hide ReplicasUp, ReplicasDown;
    CountAfterDownAndUp(o, target);
    LoweredIsAnnotated(o, target);
  }

  lemma PausedRestored(o: Object, target: Replicas)
    requires Unannotated(o) && o.spec.ScaledObject? && Lowers(o, target)
    ensures Restorable(o, target) <==> ReplicasUp(ReplicasDown(o, target).after).after == o
  {
    hide ReplicasUp, ReplicasDown;
    CountAfterDownAndUp(o, target);
    LoweredIsAnnotated(o, target);
    SettingTheCountRead(o);
  }

  /** Writing the count that was just read leaves a ScaledObject as it is exactly when its text is the printed
      one. */
  lemma SettingTheCountRead(o: Object)
    requires o.spec.ScaledObject? && GetReplicas(o).Success?
    ensures SetReplicas(o, GetReplicas(o).value) == Success(o) <==>
            PausedReplicasKey in o.annotations ==>
              GetReplicas(o).value != UNDEFINED && CanonicalDecimal(o.annotations[PausedReplicasKey])
  {
    var c := GetReplicas(o).value;
    if PausedReplicasKey in o.annotations {
      var text := o.annotations[PausedReplicasKey];
      PrintedIffCanonical(text, MIN_INT32, MAX_INT32);
      if text == Itoa(c) {
        assert o.annotations[PausedReplicasKey := Itoa(c)] == o.annotations;
      } else {
        assert o.annotations[PausedReplicasKey := Itoa(c)][PausedReplicasKey] != text;
      }
    } else {
      assert o.annotations - {PausedReplicasKey} == o.annotations;
    }
  }

  lemma SuspendRestored(o: Object)
    requires Unannotated(o) && o.spec.CronJob?
    ensures SuspendUp(SuspendDown(o).after).after == o
  {
    if !o.spec.suspend {
      RoundTrip(Boolean(false));
      ForgetUndoesRecord(o, Boolean(false));
    }
  }

  lemma SelectorRestored(o: Object)
    requires Unannotated(o) && o.spec.DaemonSet?
    ensures SelectorUp(SelectorDown(o).after).after == o
  {
    var labels := o.spec.nodeSelector;
    if MATCH_NONE !in labels {
      RoundTrip(Boolean(false));
      ForgetUndoesRecord(o, Boolean(false));
      assert labels[MATCH_NONE := "true"] - {MATCH_NONE} == labels;
    }
  }

  lemma ValueRestored(o: Object)
    requires Unannotated(o) && o.spec.ValueScaled()
    ensures Restorable(o, Absolute(0)) <==> ValueUp(ValueDown(o).after).after == o
  {
    if GetValue(o).Success? && GetValue(o).value != DownValue(o.spec) {
      var text := GetValue(o).value;
      var down := Record(SetValue(o, Text(DownValue(o.spec))).value, Text(text));
      assert ValueDown(o).after == down;
      assert RecordedText(down) == Some(text);
      if o.spec.Ingress? { ClassRestored(o, down); } else { TypeRestored(o, down); }
    }
  }

  lemma ClassRestored(o: Object, down: Object)
    requires Unannotated(o) && o.spec.Ingress? && o.spec.className.Some?
    requires down == Record(o.(spec := Ingress(Some(INGRESS_CLASS))), Text(o.spec.className.value))
    ensures Verbatim(o.spec.className.value) <==> ValueUp(down).after == o
  {
    var text := o.spec.className.value;
    VerbatimExactly(text);
    ForgetUndoesRecord(o, Text(text));
    if Parse(text).None? {
      assert ValueUp(down).after == down;
    } else {
      assert ValueUp(down).after.annotations == o.annotations;
    }
  }

  lemma TypeRestored(o: Object, down: Object)
    requires Unannotated(o) && o.spec.Service?
    requires down == Record(o.(spec := Service("ClusterIP")), Text(o.spec.serviceType))
    requires o.spec.serviceType != "ClusterIP"
    ensures o.spec.serviceType == "LoadBalancer" <==> ValueUp(down).after == o
  {
    var text := o.spec.serviceType;
    ForgetUndoesRecord(o, Text(text));
    if text == "LoadBalancer" {
      ServiceTypesRead();
      assert OriginalOf(down.annotations) == Recorded(Text(text));
      assert ValueUp(down).after.annotations == o.annotations;
    } else if ValueUp(down).UpdateNeeded() {
      assert ValueUp(down).after.spec.serviceType in {"LoadBalancer", "ClusterIP"};
    }
  }

  lemma ServiceTypesRead()
    ensures Parse("LoadBalancer") == Some(Text("LoadBalancer"))
    ensures Parse("ClusterIP") == Some(Text("ClusterIP"))
  {
    LongLettersRead("LoadBalancer");
    LongLettersRead("ClusterIP");
  }

  /** A text of letters that is longer than the booleans is read as a text. */
  lemma LongLettersRead(text: string)
    requires IsAlpha(text) && |text| > 5
    ensures Parse(text) == Some(Text(text))
  {
    assert |Lowered(text)| > 5;
    LettersAreNotNumbers(text);
  }

  lemma BudgetRestored(o: Object, target: Replicas)
    requires Unannotated(o) && o.spec.DisruptionBudget?
    ensures Restorable(o, target) <==> BudgetUp(BudgetDown(o, target).after).after == o
  {
    hide Parse, FromIntOrStr, StorableLimit;
    if Limit(o.spec).Some? {
      var limit := Limit(o.spec).value;
      var current := FromIntOrStr(limit);
      if current.String() != target.String() {
        var down := Record(o.(spec := SetLimit(o.spec, target.AsIntStr())), current);
        assert BudgetDown(o, target).after == down;
        LimitRestored(o, down, target.AsIntStr());
      }
    }
  }

  lemma LimitRestored(o: Object, down: Object, limit: IntOrString)
    requires Unannotated(o) && o.spec.DisruptionBudget? && Limit(o.spec).Some?
    requires down == Record(o.(spec := SetLimit(o.spec, limit)), FromIntOrStr(Limit(o.spec).value))
    ensures StorableLimit(Limit(o.spec).value) <==> BudgetUp(down).after == o
  {
    var original := Limit(o.spec).value;
    var recorded := FromIntOrStr(original);
    LimitRoundTrip(original);
    ForgetUndoesRecord(o, recorded);
    var parsed := Parse(recorded.String());
    if parsed.None? {
      assert BudgetUp(down).after == down;
    } else {
      assert BudgetUp(down).after == Forget(down.(spec := SetLimit(down.spec, parsed.value.AsIntStr())));
      assert BudgetUp(down).after.annotations == o.annotations;
      assert SetLimit(o.spec, original) == o.spec;
    }
  }

  // ----- scaling down again keeps the record -----

  /** Weaker than Settles: a second scale-down may send an update, but only one that writes what is already
      there. */
  predicate Steady(o: Object, target: Replicas) {
    Settles(o, target) ||
    match o.spec
    case DisruptionBudget(_, _) =>
      FromIntOrStr(Limit(o.spec).value).String() == FromIntOrStr(target.AsIntStr()).String()
    case Deployment(_) => GetReplicas(o).value == UNDEFINED
    case ScaledObject => GetReplicas(o).value == UNDEFINED
    case Hpa(_, _) => GetReplicas(o).value == UNDEFINED
    case _ => true
  }

  lemma SteadyExactly(o: Object, target: Replicas)
    ensures Steady(o, target) <==> Down(Down(o, target).after, target).after == Down(o, target).after
  {
    hide Up, Parse, FromIntOrStr, Replicas.String;
    DownTwiceIsDownOnce(o, target);
    if !Settles(o, target) {
      if o.spec.DisruptionBudget? { UnsettledBudget(o, target); } else { UnsettledReplicas(o, target); }
    }
  }

  /** The second scale-down of an unsettled target replaces the recorded original by the target. */
  lemma UnsettledReplicas(o: Object, target: Replicas)
    requires o.spec.ReplicaScaled() && !Settles(o, target)
    ensures var down := ReplicasDown(o, target).after;
            && ReplicasDown(down, target).after == Record(down, Absolute(UNDEFINED))
            && RecordedText(down) == Some(Itoa(GetReplicas(o).value))
            && (down == Record(down, Absolute(UNDEFINED)) <==> GetReplicas(o).value == UNDEFINED)
  {
    hide Parse, Itoa, ReplicasDown;
    WrittenCountIsRead(o, target);
    CountAfterDown(o, target);
    var down := ReplicasDown(o, target).after;
    SetTwice(o, target.n, Absolute(GetReplicas(o).value), target.n);
    LoweringUndefined(down, target);
    SameText(down, GetReplicas(o).value, UNDEFINED);
  }

  /** A second scale-down to what reads as undefined writes the same again. */
  lemma LoweringUndefined(down: Object, target: Replicas)
    requires down.spec.ReplicaScaled() && Lowers(down, target) && GetReplicas(down) == Success(UNDEFINED)
    requires SetReplicas(down, target.n) == Success(down)
    ensures ReplicasDown(down, target).after == Record(down, Absolute(UNDEFINED))
  {
  }

  lemma SameText(o: Object, recorded: Int32, c: Int32)
    requires RecordedText(o) == Some(Itoa(recorded))
    ensures o == Record(o, Absolute(c)) <==> recorded == c
  {
    ScanIntOfPrinted(recorded, MIN_INT32, MAX_INT32);
    ScanIntOfPrinted(c, MIN_INT32, MAX_INT32);
    if recorded == c {
      assert o.annotations == Record(o, Absolute(c)).annotations;
    }
  }

  lemma UnsettledBudget(o: Object, target: Replicas)
    requires o.spec.DisruptionBudget? && !Settles(o, target)
    ensures var down := BudgetDown(o, target).after;
            var read := FromIntOrStr(target.AsIntStr());
            && BudgetDown(down, target).after == Record(down, read)
            && RecordedText(down) == Some(FromIntOrStr(Limit(o.spec).value).String())
            && (down == Record(down, read) <==> FromIntOrStr(Limit(o.spec).value).String() == read.String())
  {
    hide Parse, FromIntOrStr, Replicas.String, Replicas.AsIntStr;
    var down := BudgetDown(o, target).after;
    var read := FromIntOrStr(target.AsIntStr());
    if RecordedText(down) == Some(read.String()) {
      assert down.annotations == Record(down, read).annotations;
    }
  }

  /** An object that is not steady is lost by the second scale-down. */
  lemma UnsteadyLoses(o: Object, target: Replicas)
    requires !Steady(o, target)
    ensures Up(Down(Down(o, target).after, target).after).after != o
  {
    hide Parse, FromIntOrStr, Replicas.String;
    if o.spec.DisruptionBudget? { UnsteadyBudget(o, target); } else { UnsteadyReplicas(o, target); }
  }

  lemma UnsteadyReplicas(o: Object, target: Replicas)
    requires o.spec.ReplicaScaled() && !Steady(o, target)
    ensures ReplicasUp(ReplicasDown(ReplicasDown(o, target).after, target).after).after != o
  {
    hide Parse;
    UnsettledReplicas(o, target);
    WrittenCountIsRead(o, target);
    CountReads(UNDEFINED);
    var twice := ReplicasDown(ReplicasDown(o, target).after, target).after;
    assert OriginalOf(twice.annotations) == Recorded(Absolute(UNDEFINED));
    assert GetReplicas(twice) == Success(UNDEFINED);
  }

  lemma UnsteadyBudget(o: Object, target: Replicas)
    requires o.spec.DisruptionBudget? && !Steady(o, target)
    ensures BudgetUp(BudgetDown(BudgetDown(o, target).after, target).after).after != o
  {
    hide Parse, FromIntOrStr, Replicas.String, Replicas.AsIntStr;
    UnsettledBudget(o, target);
    var read := FromIntOrStr(target.AsIntStr());
    var twice := BudgetDown(BudgetDown(o, target).after, target).after;
    assert RecordedText(twice) == Some(read.String());
    assert FromIntOrStr(Limit(o.spec).value).String() != target.String();
    LimitTextReadsBack(target.AsIntStr());
    if Parse(read.String()).None? {
      assert BudgetUp(twice).after == twice;
    }
  }

  /** Reading a recorded limit and writing it back does not change its text. */
  lemma LimitTextReadsBack(limit: IntOrString)
    ensures var text := FromIntOrStr(limit).String();
            Parse(text).Some? ==> FromIntOrStr(Parse(text).value.AsIntStr()).String() == text
  {
    var r := FromIntOrStr(limit);
    if r.Absolute? {
      CountReads(r.n);
    } else {
      PercentTextReads(r.p);
      RoundTrip(r);
      if 0 <= r.p <= 100 { LimitReadsBack(r); }
    }
  }

  // ----- what a scale-up makes of a lowered object -----

  /** The object has a value for a scale-down to find. */
  predicate Observable(o: Object) {
    && (o.spec.ReplicaScaled() ==> GetReplicas(o).Success?)
    && (o.spec.ValueScaled() ==> GetValue(o).Success?)
    && (o.spec.DisruptionBudget? ==> Limit(o.spec).Some?)
  }

  /** The text that a scale-down records: counts and limits as they were read, classes and types as they are. */
  function Observed(o: Object): string
    requires Observable(o)
  {
    match o.spec
    case Deployment(_) => Itoa(GetReplicas(o).value)
    case ScaledObject => Itoa(GetReplicas(o).value)
    case Hpa(_, _) => Itoa(GetReplicas(o).value)
    case CronJob(suspend) => Boolean(suspend).String()
    case DaemonSet(_) => "false"
    case Service(_) => GetValue(o).value
    case Ingress(_) => GetValue(o).value
    case DisruptionBudget(_, _) => FromIntOrStr(Limit(o.spec).value).String()
  }

  lemma DownRecords(o: Object, target: Replicas)
    requires SendsUpdate(Lower(target), o)
    ensures Observable(o) && RecordedText(Down(o, target).after) == Some(Observed(o))
  {
    hide FromIntOrStr, OriginalOf, Replicas.AsIntStr, ReplicasDown;
    if o.spec.ReplicaScaled() { CountDownRecords(o, target); }
  }

  lemma CountDownRecords(o: Object, target: Replicas)
    requires o.spec.ReplicaScaled() && ReplicasDown(o, target).UpdateNeeded()
    ensures Observable(o) && RecordedText(ReplicasDown(o, target).after) == Some(Observed(o))
  {
    hide OriginalOf, SetPaused;
  }

  /** Whatever was on record before, a scale-up that fails right after a scale-down keeps the object down with the
      value that was found on record. */
  lemma FailedUpKeepsTheRecord(o: Object, target: Replicas)
    requires SendsUpdate(Lower(target), o)
    ensures var down := Down(o, target).after;
            Up(down).report.Failure? ==>
              Up(down).after == down && Observable(o) && RecordedText(down) == Some(Observed(o))
  {
    hide Up, Down, Observed;
    FailureChangesNothing(Raise, Down(o, target).after);
    DownRecords(o, target);
  }

  /** The lowered objects that no scale-up raises: the record does not parse, or the resource refuses what it
      says. */
  predicate Stuck(o: Object)
    requires Observable(o)
  {
    match o.spec
    case Deployment(_) => GetReplicas(o).value < UNDEFINED
    case ScaledObject => GetReplicas(o).value < UNDEFINED
    case Hpa(_, _) => GetReplicas(o).value < 1
    case Service(serviceType) => serviceType != "LoadBalancer"
    case Ingress(className) => Parse(className.value).None?
    case DisruptionBudget(_, _) => !Storable(FromIntOrStr(Limit(o.spec).value))
    case _ => false
  }

  /** What the other lowered objects are raised to: counts, classes and limits are read and written anew. */
  function Raised(o: Object): Object
    requires Observable(o) && !Stuck(o)
  {
    match o.spec
    case Deployment(_) => SetReplicas(o, GetReplicas(o).value).value
    case ScaledObject => SetReplicas(o, GetReplicas(o).value).value
    case Hpa(_, _) => SetReplicas(o, GetReplicas(o).value).value
    case Ingress(className) =>
      o.(spec := Ingress(Some(Parse(className.value).value.String())))
    case DisruptionBudget(_, _) =>
      o.(spec := SetLimit(o.spec, FromIntOrStr(Limit(o.spec).value).AsIntStr()))
    case _ => o
  }

  /** A scale-up after a scale-down has three outcomes, told apart by the object alone: it fails and leaves the
      object down with its record, or it gives the object back, or it deletes the record and leaves the object
      with a value that is not the original. */
  lemma UpAfterDown(o: Object, target: Replicas)
    requires Unannotated(o) && SendsUpdate(Lower(target), o)
    ensures Observable(o)
    ensures var down := Down(o, target).after;
            if Stuck(o) then
              Up(down).report.Failure? && Up(down).after == down && RecordedText(down) == Some(Observed(o))
            else
              Up(down) == Changed(Raised(o), 0) && Unannotated(Raised(o))
    ensures Restorable(o, target) <==> !Stuck(o) && Raised(o) == o
  {
    hide Up, Down, Observed, Raised, Stuck, Restorable;
    DownRecords(o, target);
    UpUndoesDown(o, target);
    UpdateRecords(o, target);
    RaisedOrStuck(o, target);
    FailureChangesNothing(Raise, Down(o, target).after);
  }

  lemma UpdateRecords(o: Object, target: Replicas)
    requires Unannotated(o) && SendsUpdate(Lower(target), o)
    ensures Down(o, target).after != o
  {
    DownRecords(o, target);
  }

  lemma RaisedOrStuck(o: Object, target: Replicas)
    requires Unannotated(o) && SendsUpdate(Lower(target), o) && Observable(o)
    ensures var up := Up(Down(o, target).after);
            if Stuck(o) then up.report.Failure?
            else up == Changed(Raised(o), 0) && Unannotated(Raised(o))
  {
    hide ReplicasUp, ReplicasDown, SuspendUp, SuspendDown, ValueUp, ValueDown, SelectorUp, SelectorDown,
         BudgetUp, BudgetDown, Stuck, Raised;
    FamilyKept(Lower(target), o);
    match o.spec
    case Deployment(_) => CountRaised(o, target);
    case ScaledObject => CountRaised(o, target);
    case Hpa(_, _) => CountRaised(o, target);
    case CronJob(_) => SwitchRaised(o, target);
    case DaemonSet(_) => SwitchRaised(o, target);
    case Service(_) => ValueRaised(o, target);
    case Ingress(_) => ValueRaised(o, target);
    case DisruptionBudget(_, _) => LimitRaised(o, target);
  }

  lemma CountRaised(o: Object, target: Replicas)
    requires Unannotated(o) && o.spec.ReplicaScaled() && ReplicasDown(o, target).UpdateNeeded() && Observable(o)
    ensures var up := ReplicasUp(ReplicasDown(o, target).after);
            if Stuck(o) then up.report.Failure?
            else up == Changed(Raised(o), 0) && Unannotated(Raised(o))
  {
    hide ReplicasUp, ReplicasDown;
    LoweringSends(o, target);
    CountAfterDownAndUp(o, target);
    if !Stuck(o) { SetKeepsUnannotated(o, GetReplicas(o).value); }
  }

  lemma SwitchRaised(o: Object, target: Replicas)
    requires Unannotated(o) && (o.spec.CronJob? || o.spec.DaemonSet?) && SendsUpdate(Lower(target), o)
    ensures Observable(o) && !Stuck(o) && Raised(o) == o
    ensures Up(Down(o, target).after) == Changed(o, 0)
  {
    RoundTrip(Boolean(false));
    ForgetUndoesRecord(o, Boolean(false));
    if o.spec.DaemonSet? {
      assert o.spec.nodeSelector[MATCH_NONE := "true"] - {MATCH_NONE} == o.spec.nodeSelector;
    }
  }

  lemma ValueRaised(o: Object, target: Replicas)
    requires Unannotated(o) && o.spec.ValueScaled() && ValueDown(o).UpdateNeeded() && Observable(o)
    ensures var up := ValueUp(ValueDown(o).after);
            if Stuck(o) then up.report.Failure?
            else up == Changed(Raised(o), 0) && Unannotated(Raised(o))
  {
    hide Parse;
    var text := GetValue(o).value;
    var down := ValueDown(o).after;
    assert RecordedText(down) == Some(text);
    ForgetUndoesRecord(o, Text(text));
    if o.spec.Service? {
      TypeRaised(text);
    }
  }

  /** No other text is written back as one of the two supported types. */
  lemma TypeRaised(text: string)
    ensures Parse("LoadBalancer") == Some(Text("LoadBalancer"))
    ensures Parse(text).Some? && Parse(text).value.String() in {"LoadBalancer", "ClusterIP"} ==>
              Parse(text).value.String() == text
  {
    ServiceTypesRead();
    if Parse(text).Some? {
      ReprintIsStable(text);
      TextReadsAsItself(text);
    }
  }

  lemma TextReadsAsItself(text: string)
    ensures Parse(text).Some? && Parse(text).value.Text? ==> Parse(text).value.s == text
  {
  }

  lemma LimitRaised(o: Object, target: Replicas)
    requires Unannotated(o) && o.spec.DisruptionBudget? && BudgetDown(o, target).UpdateNeeded() && Observable(o)
    ensures var up := BudgetUp(BudgetDown(o, target).after);
            if Stuck(o) then up.report.Failure?
            else up == Changed(Raised(o), 0) && Unannotated(Raised(o))
  {
    hide Parse, FromIntOrStr, Replicas.AsIntStr;
    var read := FromIntOrStr(Limit(o.spec).value);
    ForgetUndoesRecord(o, read);
    LimitReads(Limit(o.spec).value);
  }

  // ----- objects that do not come back -----

  /** An ingress whose class does not parse keeps it on record, letter for letter, and the scale-up fails; any
      other class comes back as it prints. */
  lemma ClassAfterDownAndUp(o: Object, name: string, target: Replicas)
    requires Unannotated(o) && o.spec == Ingress(Some(name)) && name != INGRESS_CLASS
    ensures var down := Down(o, target).after;
            && down.spec == Ingress(Some(INGRESS_CLASS)) && RecordedText(down) == Some(name)
            && (Parse(name).None? ==> Up(down) == Failed(down, BadOriginal))
            && (Parse(name).Some? ==>
                  Up(down) == Changed(o.(spec := Ingress(Some(Parse(name).value.String()))), 0))
  {
    hide Parse;
    ForgetUndoesRecord(o, Text(name));
  }

  /** A NodePort service stays down with its type on record: ClusterIP and LoadBalancer are the only types that a
      scale-up writes. */
  lemma NodePortIsStuck(o: Object, target: Replicas)
    requires Unannotated(o) && o.spec == Service("NodePort")
    ensures var down := Down(o, target).after;
            down.spec == Service("ClusterIP") && RecordedText(down) == Some("NodePort") &&
            Up(down).report.Failure? && Up(down).after == down && !Restorable(o, target)
  {
    hide Parse;
    assert |"NodePort"| == 8 && |"ClusterIP"| == 9 && |"LoadBalancer"| == 12;
    UpAfterDown(o, target);
  }

  /** So does an ingress of class nginx-internal. */
  lemma HyphenIsStuck(o: Object, target: Replicas)
    requires Unannotated(o) && o.spec == Ingress(Some("nginx-internal"))
    ensures var down := Down(o, target).after;
            down.spec == Ingress(Some(INGRESS_CLASS)) && RecordedText(down) == Some("nginx-internal") &&
            Up(down).report.Failure? && Up(down).after == down && !Restorable(o, target)
  {
    hide Parse, Verbatim;
    HyphenIsNotVerbatim();
    assert "nginx-internal"[0] == 'n' && INGRESS_CLASS[0] == 'k';
    ClassAfterDownAndUp(o, "nginx-internal", target);
  }

  /** An ingress of class 007 comes back as class 7, and nothing on it tells of the other. */
  lemma LeadingZerosAreForgotten(o: Object, target: Replicas)
    requires Unannotated(o) && o.spec == Ingress(Some("007"))
    ensures Up(Down(o, target).after) == Changed(o.(spec := Ingress(Some("7"))), 0)
  {
    LeadingZerosParse();
    hide Parse;
    assert "007"[0] == '0' && INGRESS_CLASS[0] == 'k';
    ClassAfterDownAndUp(o, "007", target);
  }

  lemma LeadingZerosParse()
    ensures Parse("007") == Some(Absolute(7)) && Itoa(7) == "7"
  {
    assert Digits(7) == ['7'];
    assert "007" == "0" + ("0" + Digits(7));
    ScanDigitsOfPrinted(7);
    LeadingZeroScans(Digits(7));
    LeadingZeroScans("0" + Digits(7));
    hide ScanDigits, Digits;
    assert ParseInt32("007") == Some(7);
  }

  /** A budget limit of 0150% is recorded as 150%, which no scale-up reads. */
  lemma LargePercentIsStuck(o: Object, target: Replicas)
    requires Unannotated(o) && o.spec == DisruptionBudget(Some(Str("0150%")), None)
    requires target.String() != "150%"
    ensures var down := Down(o, target).after;
            RecordedText(down) == Some("150%") && Up(down).report.Failure? && Up(down).after == down
  {
    LargePercentReads();
    hide Parse, FromIntOrStr;
    UpAfterDown(o, target);
  }

  lemma LargePercentReads()
    ensures FromIntOrStr(Str("0150%")) == Percentage(150) && Percentage(150).String() == "150%"
  {
    assert Digits(1) == ['1'] && Digits(15) == ['1', '5'] && Digits(150) == ['1', '5', '0'];
    assert TrimPercent("0150%") == "0" + Digits(150);
    ScanDigitsOfPrinted(150);
    LeadingZeroScans(Digits(150));
    hide ScanDigits, Digits;
    assert ("0" + Digits(150))[0] == '0';
    assert AtoiUnchecked("0" + Digits(150)) == 150;
  }

  lemma LeadingZeroScans(s: string)
    ensures ScanDigits("0" + s, 0) == ScanDigits(s, 0)
  {
    assert ("0" + s)[1..] == s;
  }
}
