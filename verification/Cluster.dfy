/** Any number of controller instances and a user around one object of the API server. An instance
    reads the object, scales its copy, and sends the copy back; the server accepts it only if the
    object has not been written since it was read. */
module Cluster {
  import opened Wrappers
  import opened Decimal
  import opened Replicas
  import opened Annotations
  import opened Scaling
  import opened Laws

  /** An instance's local copy. A rejected copy is scaled already and must be read again before use. */
  datatype Copy =
    | NoCopy
    | Clean(version: nat, o: Object)
    | Dirty(version: nat, o: Object, d: Decision)
    | Rejected

  /** Who wrote a version. */
  datatype Write = ByUser(o: Object) | ByInstance(i: nat, d: Decision)

  /** `history[v]` is the object at version v and `log[v]` says who replaced it; `intended` is what the
      user last asked for. */
  datatype System = System(history: seq<Object>, log: seq<Write>, copies: map<nat, Copy>, intended: Object) {
    function Current(): Object
      requires history != []
    {
      history[|history| - 1]
    }

    function CopyOf(i: nat): Copy {
      if i in copies then copies[i] else NoCopy
    }

    function With(i: nat, copy: Copy): System {
      this.(copies := copies[i := copy])
    }
  }

  datatype Step =
    | Read(i: nat)                        // the listing of a scan, or the re-read after a conflict
    | Compute(i: nat, d: Decision)        // ScaleDown or ScaleUp on the local copy
    | Commit(i: nat)                      // Update
    | GiveUp(i: nat)                      // an I/O failure, a crash, or no retries left
    | Edit(o: Object)                     // the user replaces the object
    | Adjust(c: Change)                   // anyone changes a part that scaling does not own

  function Start(o: Object): System {
    System([o], [], map[], o)
  }

  function Next(s: System, e: Step): (next: System)
    requires s.history != []
    ensures next.history != []
  {
    match e
    case Read(i) => s.With(i, Clean(|s.history| - 1, s.Current()))
    case Compute(i, d) =>
      if !s.CopyOf(i).Clean? then s
      else
        var outcome := Apply(d, s.CopyOf(i).o);
        s.With(i, if outcome.UpdateNeeded() then Dirty(s.CopyOf(i).version, outcome.after, d) else NoCopy)
    case Commit(i) =>
      if !s.CopyOf(i).Dirty? then s
      else if s.CopyOf(i).version != |s.history| - 1 then s.With(i, Rejected)
      else
        s.With(i, NoCopy).(
          history := s.history + [s.CopyOf(i).o],
          log := s.log + [ByInstance(i, s.CopyOf(i).d)])
    case GiveUp(i) => s.With(i, NoCopy)
    case Edit(o) => s.(history := s.history + [o], log := s.log + [ByUser(o)], intended := o)
    case Adjust(c) =>
      var o := Adjusted(s.Current(), c);
      s.(history := s.history + [o], log := s.log + [ByUser(o)], intended := Adjusted(s.intended, c))
  }

  function Run(s: System, steps: seq<Step>): (last: System)
    requires s.history != []
    ensures last.history != []
    decreases |steps|
  {
    if steps == [] then s else Run(Next(s, steps[0]), steps[1..])
  }

  // ----- no lost update -----

  /** What one write makes of the object before it. */
  function Effect(w: Write, before: Object): Object {
    match w
    case ByUser(o) => o
    case ByInstance(_, d) => Apply(d, before).after
  }

  /** The object that results from doing the writes one after another, each on the result of the last. */
  function Replay(o: Object, log: seq<Write>): Object {
    if log == [] then o else Effect(log[|log| - 1], Replay(o, log[..|log| - 1]))
  }

  predicate CopyAgrees(copy: Copy, history: seq<Object>) {
    match copy
    case NoCopy => true
    case Rejected => true
    case Clean(v, o) => v < |history| && o == history[v]
    case Dirty(v, o, d) => v < |history| && o == Apply(d, history[v]).after && SendsUpdate(d, history[v])
  }

  /** A clean copy is the object at its version, a dirty one is that object scaled once, and the history is
      sequential. */
  ghost predicate Consistent(s: System) {
    && |s.history| == |s.log| + 1
    && (forall i :: i in s.copies ==> CopyAgrees(s.copies[i], s.history))
    && (forall v :: 0 <= v < |s.log| ==> s.history[v + 1] == Effect(s.log[v], s.history[v]))
    && (forall v :: 0 <= v < |s.log| && s.log[v].ByInstance? ==> SendsUpdate(s.log[v].d, s.history[v]))
  }

  lemma StepKeepsConsistent(s: System, e: Step)
    requires Consistent(s)
    ensures Consistent(Next(s, e))
    ensures s.history <= Next(s, e).history
  {
    hide Apply;
    var s' := Next(s, e);
    forall i | i in s'.copies ensures CopyAgrees(s'.copies[i], s'.history) {
      if i in s.copies { assert CopyAgrees(s.copies[i], s.history); }
    }
  }

  lemma {:induction false} RunKeepsConsistent(s: System, steps: seq<Step>)
    requires Consistent(s)
    ensures Consistent(Run(s, steps)) && s.history <= Run(s, steps).history
    decreases |steps|
  {
    if steps == [] {
    } else {
      StepKeepsConsistent(s, steps[0]);
      RunKeepsConsistent(Next(s, steps[0]), steps[1..]);
    }
  }

  lemma {:induction false} HistoryIsReplay(o: Object, history: seq<Object>, log: seq<Write>)
    requires |history| == |log| + 1 && history[0] == o
    requires forall v :: 0 <= v < |log| ==> history[v + 1] == Effect(log[v], history[v])
    ensures history[|log|] == Replay(o, log)
  {
    if log == [] {
    } else {
      HistoryIsReplay(o, history[..|log|], log[..|log| - 1]);
    }
  }

  /** However the steps interleave, the server holds what the accepted writes give when they are done one
      after another, and each of an instance's writes changed what it scaled. */
  lemma NoLostUpdate(o: Object, steps: seq<Step>)
    ensures var s := Run(Start(o), steps);
            && s.Current() == Replay(o, s.log)
            && |s.history| == |s.log| + 1
            && forall v :: 0 <= v < |s.log| && s.log[v].ByInstance? ==>
                 SendsUpdate(s.log[v].d, s.history[v]) && s.history[v + 1] == Apply(s.log[v].d, s.history[v]).after
  {
    hide Apply;
    RunKeepsConsistent(Start(o), steps);
    var s := Run(Start(o), steps);
    assert s.history[0] == o;
    HistoryIsReplay(o, s.history, s.log);
  }

  // ----- the original is never lost -----

  /** The objects a user may ask for: exactly those that no sequence of scalings with this target can
      spoil (see OriginalLostOtherwise). */
  predicate Eligible(o: Object, target: Replicas) {
    Unannotated(o) && Restorable(o, target) && Steady(o, target)
  }

  /** The decisions of instances that share a target. */
  predicate Shared(d: Decision, target: Replicas) {
    d == Raise || d == Lower(target)
  }

  /** The restorable objects whose record a second scale-down replaces: counts lowered to -1, and limits lowered
      to a boolean or a text, which reads back as 0%. */
  predicate Overwritten(o: Object, target: Replicas) {
    match o.spec
    case Deployment(_) => target == Absolute(UNDEFINED) && Lowers(o, target) && GetReplicas(o).value != UNDEFINED
    case ScaledObject => target == Absolute(UNDEFINED) && Lowers(o, target) && GetReplicas(o).value != UNDEFINED
    case DisruptionBudget(_, _) =>
      !LimitKind(target) && Limit(o.spec).Some? && FromIntOrStr(Limit(o.spec).value).String() != "0%"
    case _ => false
  }

  /** Which objects are eligible for the targets that flags and annotations can set. */
  lemma EligibleExactly(o: Object, target: Replicas)
    requires Storable(target)
    ensures Eligible(o, target) <==> Unannotated(o) && Restorable(o, target) && !Overwritten(o, target)
  {
    if o.spec.DisruptionBudget? {
      LimitSteadyExactly(o, target);
    }
  }

  lemma LimitSteadyExactly(o: Object, target: Replicas)
    requires Storable(target) && o.spec.DisruptionBudget?
    ensures Steady(o, target) <==> !Overwritten(o, target)
  {
    hide Parse, FromIntOrStr, Replicas.AsIntStr;
    if LimitKind(target) {
      LimitReadsBack(target);
    } else {
      LetterTargetsDoNotReadBack(target);
      if Limit(o.spec).Some? { LimitIsNoLetters(Limit(o.spec).value, target); }
    }
  }

  lemma PrintedStartsWithNoLetter(n: int)
    ensures Itoa(n) != "" && !IsLetter(Itoa(n)[0])
  {
    if n >= 0 { assert Digits(n)[0] in Digits(n); }
  }

  /** No limit prints like a boolean or a text. */
  lemma LimitIsNoLetters(limit: IntOrString, target: Replicas)
    requires Storable(target) && !LimitKind(target)
    ensures FromIntOrStr(limit).String() != target.String()
  {
    hide AtoiUnchecked, Itoa;
    var r := FromIntOrStr(limit);
    PrintedStartsWithNoLetter(if r.Absolute? then r.n else r.p);
    assert IsAlpha(target.String());
    if target.String() != "" { assert target.String()[0] in target.String(); }
  }

  /** All instances share one target; the user replaces the object only while it is not scaled down. */
  predicate Allowed(s: System, e: Step, target: Replicas)
    requires s.history != []
  {
    match e
    case Compute(_, d) => Shared(d, target)
    case Edit(o) => Unannotated(s.Current()) && Eligible(o, target)
    case Adjust(c) => c.Outside() && Fits(s.intended, c, target)
    case _ => true
  }

  /** A maximum must not fall below the original of an autoscaler that is lowered (see MaximumExactly). */
  predicate Fits(o: Object, c: Change, target: Replicas) {
    c.Maximum? && o.spec.Hpa? && Lowers(o, target) ==> GetReplicas(o).value <= c.max
  }

  predicate Disciplined(s: System, steps: seq<Step>, target: Replicas)
    requires s.history != []
    decreases |steps|
  {
    steps == [] || (Allowed(s, steps[0], target) && Disciplined(Next(s, steps[0]), steps[1..], target))
  }

  /** The server holds what the user asked for, or that scaled down once. */
  ghost predicate Safe(s: System, target: Replicas) {
    && Consistent(s)
    && Eligible(s.intended, target)
    && (s.Current() == s.intended || s.Current() == Down(s.intended, target).after)
    && (forall i :: i in s.copies && s.copies[i].Dirty? ==> Shared(s.copies[i].d, target))
  }

  /** Scaling moves an eligible object between two states only. */
  lemma TwoStates(o: Object, target: Replicas, d: Decision, current: Object)
    requires Eligible(o, target) && Shared(d, target)
    requires current == o || current == Down(o, target).after
    ensures Apply(d, current).after == if d.Raise? then o else Down(o, target).after
  {
    hide Restorable, Steady, Down;
    UpUndoesDown(o, target);
    SteadyExactly(o, target);
    UnannotatedStaysUp(o);
  }

  lemma StepKeepsSafe(s: System, e: Step, target: Replicas)
    requires Safe(s, target) && Allowed(s, e, target)
    ensures Safe(Next(s, e), target)
  {
    hide Apply, Eligible, Down;
    StepKeepsConsistent(s, e);
    var s' := Next(s, e);
    match e
    case Commit(i) =>
      if s'.history != s.history {
        assert CopyAgrees(s.copies[i], s.history);
        TwoStates(s.intended, target, s.copies[i].d, s.Current());
      }
    case Adjust(c) =>
      AdjustKeepsEligible(s.intended, target, c);
    case _ =>
  }

  lemma AdjustKeepsEligible(o: Object, target: Replicas, c: Change)
    requires Eligible(o, target) && c.Outside() && Fits(o, c, target)
    ensures Eligible(Adjusted(o, c), target)
    ensures Down(Adjusted(o, c), target).after == Adjusted(Down(o, target).after, c)
  {
    hide Restorable, Steady, Down, Up, Adjusted;
    if c.Maximum? {
      MaximumKeepsEligible(o, target, c.max);
    } else {
      var adjusted := Adjusted(o, c);
      var down := Down(o, target).after;
      AdjustKeepsUnannotated(o, c);
      ScalingIgnoresChange(Lower(target), o, c);
      ScalingIgnoresChange(Lower(target), down, c);
      ScalingIgnoresChange(Raise, down, c);
      UpUndoesDown(o, target);
      UpUndoesDown(adjusted, target);
      SteadyExactly(o, target);
      SteadyExactly(adjusted, target);
    }
  }

  lemma AdjustKeepsUnannotated(o: Object, c: Change)
    requires c.Outside()
    ensures Unannotated(Adjusted(o, c)) <==> Unannotated(o)
  {
  }

  lemma MaximumKeepsEligible(o: Object, target: Replicas, max: Int32)
    requires Eligible(o, target) && Fits(o, Maximum(max), target)
    ensures Eligible(Adjusted(o, Maximum(max)), target)
    ensures Down(Adjusted(o, Maximum(max)), target).after == Adjusted(Down(o, target).after, Maximum(max))
  {
    FamilyKept(Lower(target), o);
    if o.spec.Hpa? {
      LoweringSends(o, target);
      LoweringSends(Adjusted(o, Maximum(max)), target);
    }
  }

  /** A new maximum on a lowered autoscaler leaves the original one scale-up away exactly when it is not below
      it. */
  lemma MaximumExactly(o: Object, target: Replicas, max: Int32)
    requires Eligible(o, target) && o.spec.Hpa?
    ensures Fits(o, Maximum(max), target) <==>
            Up(Adjusted(Down(o, target).after, Maximum(max))).after == Adjusted(o, Maximum(max))
  {
    hide Parse, Steady;
    LoweringSends(o, target);
    if Lowers(o, target) {
      WrittenCountIsRead(o, target);
      CountAfterDown(o, target);
      var down := Adjusted(Down(o, target).after, Maximum(max));
      RaisingACount(down, GetReplicas(o).value);
      ForgetUndoesRecord(o, Absolute(GetReplicas(o).value));
    } else {
      UnannotatedStaysUp(Adjusted(o, Maximum(max)));
    }
  }

  lemma {:induction false} RunKeepsSafe(s: System, steps: seq<Step>, target: Replicas)
    requires Safe(s, target) && Disciplined(s, steps, target)
    ensures Safe(Run(s, steps), target)
    decreases |steps|
  {
    if steps == [] {
    } else {
      StepKeepsSafe(s, steps[0], target);
      RunKeepsSafe(Next(s, steps[0]), steps[1..], target);
    }
  }

  /** In every reachable state the server holds what the user last asked for or that scaled down, and one
      scale-up gives back what the user last asked for. */
  lemma OriginalNeverLost(o: Object, steps: seq<Step>, target: Replicas)
    requires Eligible(o, target) && Disciplined(Start(o), steps, target)
    ensures var s := Run(Start(o), steps);
            && (s.Current() == s.intended || s.Current() == Down(s.intended, target).after)
            && Up(s.Current()).after == s.intended
            && Unannotated(s.intended)
  {
    RunKeepsSafe(Start(o), steps, target);
    var s := Run(Start(o), steps);
    TwoStates(s.intended, target, Raise, s.Current());
  }

  /** Every other object can be lost by one instance alone. */
  lemma OriginalLostOtherwise(o: Object, target: Replicas) returns (steps: seq<Step>)
    requires Unannotated(o) && !Eligible(o, target)
    ensures Disciplined(Start(o), steps, target)
    ensures var s := Run(Start(o), steps); s.intended == o && Up(s.Current()).after != o
  {
    hide Restorable, Steady, Down, Up;
    var once := [Read(0), Compute(0, Lower(target)), Commit(0)];
    OneScan(Start(o), 0, Lower(target));
    UpUndoesDown(o, target);
    if !Restorable(o, target) {
      steps := once;
      ScanIsDisciplined(Start(o), 0, target);
    } else {
      SteadyExactly(o, target);
      UnsteadyLoses(o, target);
      steps := once + once;
      var s := Run(Start(o), once);
      OneScan(s, 0, Lower(target));
      RunConcat(Start(o), once, once);
      ScanIsDisciplined(Start(o), 0, target);
      ScanIsDisciplined(s, 0, target);
      DisciplinedConcat(Start(o), once, once, target);
    }
  }

  lemma RunThree(s: System, a: Step, b: Step, c: Step)
    requires s.history != []
    ensures Run(s, [a, b, c]) == Next(Next(Next(s, a), b), c)
  {
    hide Next;
    assert [a, b, c][1..] == [b, c] && [b, c][1..] == [c] && [c][1..] == [];
    assert Run(Next(s, a), [b, c]) == Run(Next(Next(s, a), b), [c]);
    assert Run(Next(Next(s, a), b), [c]) == Run(Next(Next(Next(s, a), b), c), []);
  }

  /** A scan that nobody disturbs does its work on the object as it is. */
  lemma OneScan(s: System, i: nat, d: Decision)
    requires s.history != []
    ensures var s' := Run(s, [Read(i), Compute(i, d), Commit(i)]);
            s'.Current() == Apply(d, s.Current()).after && s'.intended == s.intended
  {
    hide Apply, Run;
    RunThree(s, Read(i), Compute(i, d), Commit(i));
    SkipChangesNothing(d, s.Current());
    var read := Next(s, Read(i));
    assert read == s.With(i, Clean(|s.history| - 1, s.Current()));
    ComputeAndCommit(read, i, d, s.Current());
  }

  lemma ComputeAndCommit(s: System, i: nat, d: Decision, o: Object)
    requires s.history != [] && s.Current() == o && s.CopyOf(i) == Clean(|s.history| - 1, o)
    requires SendsUpdate(d, o) || Apply(d, o).after == o
    ensures var s' := Next(Next(s, Compute(i, d)), Commit(i));
            s'.Current() == Apply(d, o).after && s'.intended == s.intended
  {
    hide Apply;
    var computed := Next(s, Compute(i, d));
    if SendsUpdate(d, o) {
      assert computed == s.With(i, Dirty(|s.history| - 1, Apply(d, o).after, d));
      assert computed.CopyOf(i) == Dirty(|s.history| - 1, Apply(d, o).after, d);
    } else {
      assert computed == s.With(i, NoCopy);
      assert computed.CopyOf(i) == NoCopy;
    }
  }

  lemma ScanIsDisciplined(s: System, i: nat, target: Replicas)
    requires s.history != []
    ensures Disciplined(s, [Read(i), Compute(i, Lower(target)), Commit(i)], target)
  {
    hide Apply;
    var steps := [Read(i), Compute(i, Lower(target)), Commit(i)];
    var s1 := Next(s, Read(i));
    var s2 := Next(s1, Compute(i, Lower(target)));
    assert steps[1..] == [Compute(i, Lower(target)), Commit(i)];
    assert steps[1..][1..] == [Commit(i)];
    assert Disciplined(Next(s2, Commit(i)), [], target);
    assert Disciplined(s2, [Commit(i)], target);
    assert Disciplined(s1, steps[1..], target);
  }

  lemma {:induction false} RunConcat(s: System, a: seq<Step>, b: seq<Step>)
    requires s.history != []
    ensures Run(s, a + b) == Run(Run(s, a), b)
    decreases |a|
  {
    if a == [] {
      assert a + b == b;
    } else {
      assert (a + b)[1..] == a[1..] + b;
      RunConcat(Next(s, a[0]), a[1..], b);
    }
  }

  lemma {:induction false} DisciplinedConcat(s: System, a: seq<Step>, b: seq<Step>, target: Replicas)
    requires s.history != []
    requires Disciplined(s, a, target) && Disciplined(Run(s, a), b, target)
    ensures Disciplined(s, a + b, target)
    decreases |a|
  {
    if a == [] {
      assert a + b == b;
    } else {
      assert (a + b)[1..] == a[1..] + b;
      DisciplinedConcat(Next(s, a[0]), a[1..], b, target);
    }
  }

  // ----- steps one at a time -----

  lemma RunSnoc(s: System, steps: seq<Step>, e: Step)
    requires s.history != []
    ensures Run(s, steps + [e]) == Next(Run(s, steps), e)
  {
    RunConcat(s, steps, [e]);
    assert [e][1..] == [];
    assert Run(Next(Run(s, steps), e), []) == Next(Run(s, steps), e);
  }

  /** A run is disciplined when each of its steps is allowed in the state it is taken in. */
  lemma {:induction false} DisciplinedPointwise(s: System, steps: seq<Step>, target: Replicas)
    requires s.history != []
    requires forall k :: 0 <= k < |steps| ==> Allowed(Run(s, steps[..k]), steps[k], target)
    ensures Disciplined(s, steps, target)
  {
    hide Allowed, Next;
    if steps == [] {
    } else {
      var n := |steps| - 1;
      var front := steps[..n];
      forall k | 0 <= k < |front| ensures Allowed(Run(s, front[..k]), front[k], target) {
        assert front[..k] == steps[..k];
      }
      DisciplinedPointwise(s, front, target);
      assert Allowed(Run(s, steps[..n]), steps[n], target);
      LastStepAllowed(Run(s, front), steps[n], target);
      DisciplinedConcat(s, front, [steps[n]], target);
      assert steps == front + [steps[n]];
    }
  }

  lemma LastStepAllowed(s: System, e: Step, target: Replicas)
    requires s.history != [] && Allowed(s, e, target)
    ensures Disciplined(s, [e], target)
  {
  }

  /** The history only grows. */
  lemma {:induction false} HistoryGrows(s: System, steps: seq<Step>)
    requires s.history != []
    ensures s.history <= Run(s, steps).history
    decreases |steps|
  {
    hide Apply;
    if steps == [] {
    } else {
      HistoryGrows(Next(s, steps[0]), steps[1..]);
    }
  }

  /** The steps that can write the object. */
  predicate Writes(e: Step) {
    e.Commit? || e.Edit? || e.Adjust?
  }

  lemma {:induction false} QuietKeepsHistory(s: System, steps: seq<Step>)
    requires s.history != [] && forall e <- steps :: !Writes(e)
    ensures Run(s, steps).history == s.history
    decreases |steps|
  {
    hide Apply;
    if steps == [] {
    } else {
      assert steps[0] in steps;
      QuietKeepsHistory(Next(s, steps[0]), steps[1..]);
    }
  }

  // ----- one instance among others -----

  predicate ActsAs(e: Step, i: nat) {
    match e
    case Read(j) => i == j
    case Compute(j, _) => i == j
    case Commit(j) => i == j
    case GiveUp(j) => i == j
    case _ => false
  }

  predicate BySelf(w: Write, i: nat) {
    w.ByInstance? && w.i == i
  }

  /** How many of the writes from version `from` on are instance i's. */
  function OwnWrites(log: seq<Write>, from: nat, i: nat): nat
    requires from <= |log|
    decreases |log| - from
  {
    if from == |log| then 0
    else OwnWrites(log, from + 1, i) + if BySelf(log[from], i) then 1 else 0
  }

  lemma {:induction false} OwnWritesSnoc(log: seq<Write>, w: Write, from: nat, i: nat)
    requires from <= |log|
    ensures OwnWrites(log + [w], from, i) == OwnWrites(log, from, i) + if BySelf(w, i) then 1 else 0
    decreases |log| - from
  {
    if from == |log| {
    } else {
      OwnWritesSnoc(log, w, from + 1, i);
    }
  }

  /** Whatever the others do, they leave this instance's copy alone and write nothing in its name. */
  lemma {:induction false} OthersLeaveCopyAlone(s: System, steps: seq<Step>, i: nat, from: nat)
    requires s.history != [] && from <= |s.log|
    requires forall e <- steps :: !ActsAs(e, i)
    ensures var s' := Run(s, steps);
            && s'.CopyOf(i) == s.CopyOf(i)
            && s.log <= s'.log && OwnWrites(s'.log, from, i) == OwnWrites(s.log, from, i)
    decreases |steps|
  {
    hide Apply;
    if steps == [] {
    } else {
      var e := steps[0];
      assert !ActsAs(e, i);
      var s1 := Next(s, e);
      if s1.log != s.log {
        var w := s1.log[|s.log|];
        assert s1.log == s.log + [w] && !BySelf(w, i);
        OwnWritesSnoc(s.log, w, from, i);
      }
      OthersLeaveCopyAlone(s1, steps[1..], i, from);
    }
  }

  // ----- the replica family -----

  /** A Deployment is eligible for every target a flag or an annotation can set, except -1. */
  lemma DeploymentIsEligible(o: Object, target: Int32)
    requires Unannotated(o) && o.spec.Deployment? && target >= 0
    requires o.spec.replicas.Some? ==> o.spec.replicas.value >= 0
    ensures Eligible(o, Absolute(target))
  {
  }

  /** So are undefined ScaledObjects, autoscalers within their bounds, cron jobs and daemon sets. */
  lemma OtherFamiliesAreEligible(o: Object, target: Int32)
    requires Unannotated(o) && target >= 0
    ensures o.spec.ScaledObject? && PausedReplicasKey !in o.annotations ==> Eligible(o, Absolute(target))
    ensures o.spec.Hpa? && o.spec.minReplicas.Some? && 1 <= o.spec.minReplicas.value <= o.spec.maxReplicas ==>
              Eligible(o, Absolute(target))
    ensures o.spec.CronJob? || o.spec.DaemonSet? ==> Eligible(o, Absolute(target))
  {
  }

  predicate HasCount(o: Object) {
    o.spec.Deployment? && o.spec.replicas.Some? && o.spec.replicas.value >= 0
  }

  /** So the server's copy of a Deployment is always the user's count unannotated, or the target with the
      user's count on record. */
  lemma DeploymentIsSafe(o: Object, steps: seq<Step>, target: Int32)
    requires Unannotated(o) && HasCount(o)
    requires target >= 0 && Disciplined(Start(o), steps, Absolute(target))
    requires forall e <- steps :: e.Edit? ==> HasCount(e.o)
    ensures var s := Run(Start(o), steps);
            HasCount(s.intended) &&
            (s.Current() == s.intended ||
             (s.Current().spec == Deployment(Some(target)) &&
              RecordedText(s.Current()) == Some(Itoa(s.intended.spec.replicas.value))))
  {
    DeploymentIsEligible(o, target);
    OriginalNeverLost(o, steps, Absolute(target));
    IntendedIsCounted(Start(o), steps);
    var s := Run(Start(o), steps);
    if Lowers(s.intended, Absolute(target)) {
      WrittenCountIsRead(s.intended, Absolute(target));
    } else {
      LoweringSends(s.intended, Absolute(target));
    }
  }

  lemma {:induction false} IntendedIsCounted(s: System, steps: seq<Step>)
    requires s.history != [] && HasCount(s.intended)
    requires forall e <- steps :: e.Edit? ==> HasCount(e.o)
    ensures HasCount(Run(s, steps).intended)
    decreases |steps|
  {
    hide Apply;
    if steps == [] {
    } else {
      assert steps[0] in steps;
      IntendedIsCounted(Next(s, steps[0]), steps[1..]);
    }
  }
}
