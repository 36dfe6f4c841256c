/** One controller instance at work: computing and committing a change, retrying on conflicts, and counting
    the outcome (`cmd/kubedownscaler/main.go` and `internal/api/kubernetes/client.go`). The API server and
    everyone else around it are the system of module Cluster, so that what is proved there about all runs
    holds for the runs of this code. */
module Controller {
  import opened Wrappers
  import opened Replicas
  import opened Scaling
  import opened Laws
  import opened Cluster
  import opened Workloads
  import opened Metrics
  import opened Schedule

  // ----- the API server -----

  /** Why a call other than a conflict fails: the request never arrives, or its answer never does. */
  datatype Fault = NoFault | Unreachable | ResponseLost

  /** What happens around one attempt: the steps others take before the update and before the re-read, and the
      faults of the two calls. */
  datatype Turn = Turn(beforeUpdate: seq<Step>, updateFault: Fault, beforeReget: seq<Step>, regetFails: bool)

  /** The world around instance i, attempt by attempt. */
  type World = nat -> Turn

  ghost predicate OthersOnly(world: World, i: nat) {
    forall k: nat ::
      (forall e <- world(k).beforeUpdate :: !ActsAs(e, i)) && (forall e <- world(k).beforeReget :: !ActsAs(e, i))
  }

  datatype UpdateResult = Updated | Conflict | CallFailed

  class ApiServer {
    const origin: Object
    var system: System
    ghost var trace: seq<Step>

    constructor (o: Object)
      ensures Valid() && trace == [] && origin == o
    {
      origin := o;
      system := Start(o);
      trace := [];
    }

    /** The system is what the steps so far make of the object it started with. */
    ghost predicate Valid()
      reads this
    {
      system == Run(Start(origin), trace)
    }

    method Take(e: Step)
      requires Valid()
      modifies this
      ensures Valid() && trace == old(trace) + [e]
      ensures old(system).history != [] && system == Next(old(system), e)
    {
      hide Next;
      RunSnoc(Start(origin), trace, e);
      system := Next(system, e);
      trace := trace + [e];
    }

    method TakeAll(steps: seq<Step>)
      requires Valid()
      modifies this
      ensures Valid() && trace == old(trace) + steps
      ensures old(system).history != [] && system == Run(old(system), steps)
    {
      hide Next;
      for k := 0 to |steps|
        invariant Valid() && trace == old(trace) + steps[..k]
        invariant old(system).history != [] && system == Run(old(system), steps[..k])
      {
        RunSnoc(old(system), steps[..k], steps[k]);
        assert steps[..k + 1] == steps[..k] + [steps[k]];
        Take(steps[k]);
      }
      assert steps[..|steps|] == steps;
    }
  }

  // ----- one instance's part of the trace -----

  predicate OwnStepFits(e: Step, i: nat, d: Decision) {
    ActsAs(e, i) ==> e == Read(i) || e == Compute(i, d) || e == Commit(i) || e == GiveUp(i)
  }

  /** From `before` to `after` the trace grew, and this instance's new steps are those of one decision. */
  ghost predicate Grew(before: seq<Step>, after: seq<Step>, i: nat, d: Decision) {
    before <= after && forall k :: |before| <= k < |after| ==> OwnStepFits(after[k], i, d)
  }

  lemma GrewByOne(before: seq<Step>, middle: seq<Step>, e: Step, i: nat, d: Decision)
    requires Grew(before, middle, i, d) && OwnStepFits(e, i, d)
    ensures Grew(before, middle + [e], i, d)
  {
  }

  lemma GrewByOthers(before: seq<Step>, middle: seq<Step>, steps: seq<Step>, i: nat, d: Decision)
    requires Grew(before, middle, i, d) && forall e <- steps :: !ActsAs(e, i)
    ensures Grew(before, middle + steps, i, d)
  {
  }

  /** Everyone else, and this instance before `before`, only took steps that keep the original. */
  ghost predicate OthersAllowed(o: Object, before: seq<Step>, after: seq<Step>, i: nat, target: Replicas) {
    forall k :: 0 <= k < |after| && (k < |before| || !ActsAs(after[k], i)) ==>
      Allowed(Run(Start(o), after[..k]), after[k], target)
  }

  /** If everyone else is disciplined, the whole trace is. */
  lemma TraceIsDisciplined(o: Object, before: seq<Step>, after: seq<Step>, i: nat, d: Decision, target: Replicas)
    requires Grew(before, after, i, d) && Shared(d, target)
    requires OthersAllowed(o, before, after, i, target)
    ensures Disciplined(Start(o), after, target)
  {
    forall k | 0 <= k < |after| ensures Allowed(Run(Start(o), after[..k]), after[k], target) {
      if |before| <= k { assert OwnStepFits(after[k], i, d); }
    }
    DisciplinedPointwise(Start(o), after, target);
  }

  /** One scale-up gives back what the user last asked for. */
  ghost predicate OriginalAtHand(s: System) {
    s.history != [] && Up(s.Current()).after == s.intended && Unannotated(s.intended)
  }

  /** So an attempt, whatever its faults and conflicts, leaves the user's original one scale-up away. */
  lemma AttemptKeepsTheOriginal(o: Object, before: seq<Step>, after: seq<Step>, i: nat, d: Decision, target: Replicas)
    requires Eligible(o, target) && Grew(before, after, i, d) && Shared(d, target)
    requires OthersAllowed(o, before, after, i, target)
    ensures OriginalAtHand(Run(Start(o), after))
  {
    hide Up, Eligible;
    TraceIsDisciplined(o, before, after, i, d, target);
    OriginalNeverLost(o, after, target);
  }

  // ----- one turn -----

  /** The system when the update of a turn arrives. */
  function Arrived(s: System, i: nat, d: Decision, turn: Turn): (arrived: System)
    requires s.history != []
    ensures arrived.history != []
  {
    Run(Next(s, Compute(i, d)), turn.beforeUpdate)
  }

  /** The update of a turn is refused: there is one, its call works, and the object was written since it was read. */
  predicate Refused(s: System, i: nat, d: Decision, turn: Turn)
    requires s.history != []
  {
    && s.CopyOf(i).Clean? && SendsUpdate(d, s.CopyOf(i).o)
    && turn.updateFault == NoFault
    && |Arrived(s, i, d, turn).history| - 1 != s.CopyOf(i).version
  }

  /** The system at the next turn: the update has been refused and the object read again. */
  function Reread(s: System, i: nat, d: Decision, turn: Turn): (next: System)
    requires s.history != []
    ensures next.history != []
  {
    Next(Run(Next(Arrived(s, i, d, turn), Commit(i)), turn.beforeReget), Read(i))
  }

  /** The system when turn k starts, after k refusals. */
  function TurnStart(s: System, i: nat, d: Decision, world: World, k: nat): (start: System)
    requires s.history != []
    ensures start.history != []
  {
    if k == 0 then s else Reread(TurnStart(s, i, d, world, k - 1), i, d, world(k - 1))
  }

  predicate Quiet(turn: Turn) {
    forall e <- turn.beforeUpdate :: !Writes(e)
  }

  predicate UpToDate(s: System, i: nat) {
    s.CopyOf(i).Clean? && s.CopyOf(i).version == |s.history| - 1
  }

  /** An update of an up-to-date copy is not refused if nobody writes before it. */
  lemma QuietIsNotRefused(s: System, i: nat, d: Decision, turn: Turn)
    requires s.history != [] && UpToDate(s, i) && Quiet(turn)
    ensures !Refused(s, i, d, turn)
  {
    hide Apply;
    QuietKeepsHistory(Next(s, Compute(i, d)), turn.beforeUpdate);
  }

  lemma RereadIsUpToDate(s: System, i: nat, d: Decision, world: World, k: nat)
    requires s.history != [] && k > 0
    ensures UpToDate(TurnStart(s, i, d, world, k), i)
  {
    hide Apply, Run;
  }

  // ----- the client -----

  datatype ScaleError = ConflictError | InvalidError | GenericError

  /** How an attempt at a decision ended. */
  datatype Attempt = Attempt(error: Option<ScaleError>, saved: int, committed: bool)

  /** Update: accepted if nobody has written the object since the copy was read. */
  method Update(server: ApiServer, i: nat, d: Decision, workload: Workload, turn: Turn, ghost base: nat)
    returns (r: UpdateResult, committed: bool)
    requires server.Valid() && base <= |server.system.log|
    requires server.system.CopyOf(i) == Dirty(workload.version, workload.Contents(), d)
    requires forall e <- turn.beforeUpdate :: !ActsAs(e, i)
    modifies server
    ensures server.Valid() && Grew(old(server.trace), server.trace, i, d)
    ensures base <= |server.system.log|
    ensures OwnWrites(server.system.log, base, i) ==
            OwnWrites(old(server.system.log), base, i) + if committed then 1 else 0
    // accepted exactly when it arrives and the version read is still the last
    ensures old(server.system).history != []
    ensures var arrived := Run(old(server.system), turn.beforeUpdate);
            && (committed <==> turn.updateFault != Unreachable && workload.version == |arrived.history| - 1)
            && server.system.history == arrived.history + (if committed then [workload.Contents()] else [])
            && (r.Conflict? ==> server.system == Next(arrived, Commit(i)))
    ensures r.CallFailed? <==> turn.updateFault != NoFault
    ensures r.Conflict? <==> turn.updateFault == NoFault && !committed
  {
    hide Apply;
    OthersLeaveCopyAlone(server.system, turn.beforeUpdate, i, base);
    GrewByOthers(server.trace, server.trace, turn.beforeUpdate, i, d);
    server.TakeAll(turn.beforeUpdate);
    if turn.updateFault == Unreachable {
      GrewByOne(old(server.trace), server.trace, GiveUp(i), i, d);
      server.Take(GiveUp(i));
      return CallFailed, false;
    }
    committed := workload.version == |server.system.history| - 1;
    OwnWritesSnoc(server.system.log, ByInstance(i, d), base, i);
    GrewByOne(old(server.trace), server.trace, Commit(i), i, d);
    server.Take(Commit(i));
    if turn.updateFault == ResponseLost {
      return CallFailed, committed;
    }
    return if committed then Updated else Conflict, committed;
  }

  /** DownscaleWorkload and UpscaleWorkload: scale the copy in place, then commit it if it changed. */
  method ScaleAndCommit(server: ApiServer, i: nat, d: Decision, workload: Workload, dryRun: bool, turn: Turn,
                        ghost base: nat)
    returns (a: Attempt)
    requires server.Valid() && base <= |server.system.log|
    requires server.system.CopyOf(i) == Clean(workload.version, workload.Contents())
    requires forall e <- turn.beforeUpdate :: !ActsAs(e, i)
    modifies server, workload`spec, workload`annotations
    ensures server.Valid() && Grew(old(server.trace), server.trace, i, d)
    ensures base <= |server.system.log|
    ensures OwnWrites(server.system.log, base, i) ==
            OwnWrites(old(server.system.log), base, i) + if a.committed then 1 else 0
    ensures workload.Contents() == Apply(d, old(workload.Contents())).after
    ensures old(server.system).history != [] && old(server.system.history) <= server.system.history
    // which error it reports
    ensures a.error != Some(InvalidError)
    ensures a.error == Some(ConflictError) <==> !dryRun && Refused(old(server.system), i, d, turn)
    ensures a.error == Some(GenericError) <==>
            || Apply(d, old(workload.Contents())).report.Failure?
            || (!dryRun && SendsUpdate(d, old(workload.Contents())) && turn.updateFault != NoFault)
    // what it leaves on the server
    ensures a.error == Some(ConflictError) ==>
              !a.committed && server.system == Next(Arrived(old(server.system), i, d, turn), Commit(i))
    ensures a.error == None ==> (a.committed <==> !dryRun && SendsUpdate(d, old(workload.Contents())))
    ensures a.committed ==> !dryRun && SendsUpdate(d, old(workload.Contents()))
    ensures dryRun || !SendsUpdate(d, old(workload.Contents())) ==> server.system.history == old(server.system.history)
    ensures a.committed ==> server.system.Current() == workload.Contents() &&
                            |server.system.history| == old(workload.version) + 2
    ensures a.saved == if a.error == None && d.Lower? && !(dryRun && SendsUpdate(d, old(workload.Contents())))
                       then Apply(d, old(workload.Contents())).report.value.saved else 0
  {
    hide Up, Down;
    ghost var o := workload.Contents();
    SkipChangesNothing(d, o);
    HistoryGrows(Next(server.system, Compute(i, d)), turn.beforeUpdate);
    GrewByOne(server.trace, server.trace, Compute(i, d), i, d);
    server.Take(Compute(i, d));
    var report;
    match d {
      case Lower(target) => report := workload.ScaleDown(target);
      case Raise => report := workload.ScaleUp();
    }
    assert Outcome(workload.Contents(), report) == Apply(d, o);
    if report.Failure? {
      return Attempt(Some(GenericError), 0, false);
    }
    var saved := if d.Lower? then report.value.saved else 0;
    if !report.value.updateNeeded {
      return Attempt(None, saved, false);
    }
    if dryRun {
      GrewByOne(old(server.trace), server.trace, GiveUp(i), i, d);
      server.Take(GiveUp(i));
      return Attempt(None, 0, false);
    }
    ghost var middle := server.trace;
    var r, committed := Update(server, i, d, workload, turn, base);
    GrewTwice(old(server.trace), middle, server.trace, i, d);
    match r
    case Updated => return Attempt(None, saved, true);
    case Conflict => return Attempt(Some(ConflictError), 0, false);
    case CallFailed => return Attempt(Some(GenericError), 0, committed);
  }

  lemma GrewTwice(a: seq<Step>, b: seq<Step>, c: seq<Step>, i: nat, d: Decision)
    requires Grew(a, b, i, d) && Grew(b, c, i, d)
    ensures Grew(a, c, i, d)
  {
  }

  /** RegetWorkload: a fresh read, or a failure that leaves the stale copy in place. */
  method Reget(server: ApiServer, i: nat, d: Decision, workload: Workload, turn: Turn, ghost base: nat)
    returns (ok: bool)
    requires server.Valid() && base <= |server.system.log|
    requires forall e <- turn.beforeReget :: !ActsAs(e, i)
    modifies server, workload
    ensures server.Valid() && Grew(old(server.trace), server.trace, i, d)
    ensures base <= |server.system.log|
    ensures OwnWrites(server.system.log, base, i) == OwnWrites(old(server.system.log), base, i)
    ensures ok == !turn.regetFails
    ensures ok ==> server.system.CopyOf(i) == Clean(workload.version, workload.Contents())
    ensures old(server.system).history != []
    ensures server.system ==
            if ok then Next(Run(old(server.system), turn.beforeReget), Read(i))
            else Run(old(server.system), turn.beforeReget)
    // the copy is the latest version
    ensures ok ==> server.system.history != [] && workload.Contents() == server.system.Current() &&
                   workload.version == |server.system.history| - 1
  {
    hide Apply;
    OthersLeaveCopyAlone(server.system, turn.beforeReget, i, base);
    GrewByOthers(server.trace, server.trace, turn.beforeReget, i, d);
    server.TakeAll(turn.beforeReget);
    if turn.regetFails {
      return false;
    }
    GrewByOne(old(server.trace), server.trace, Read(i), i, d);
    server.Take(Read(i));
    workload.Refresh(server.system.Current(), |server.system.history| - 1);
    return true;
  }

  // ----- scaling by decision -----

  predicate Acts(scaling: ScalingKind, target: Option<Replicas>) {
    scaling == ScalingUp || (scaling == ScalingDown && target.Some?)
  }

  /** What the instance asks of the workload, when it asks for anything. */
  function DecisionOf(scaling: ScalingKind, target: Option<Replicas>): Decision {
    if scaling == ScalingDown && target.Some? then Lower(target.value) else Raise
  }

  /** The decision cannot be carried out on the object: there is no target, the scaling fails, or the call of an
      update does. */
  predicate CannotScale(scaling: ScalingKind, target: Option<Replicas>, o: Object, dryRun: bool, fault: Fault) {
    || (scaling == ScalingDown && target.None?)
    || (Acts(scaling, target) &&
        (|| Apply(DecisionOf(scaling, target), o).report.Failure?
         || (!dryRun && SendsUpdate(DecisionOf(scaling, target), o) && fault != NoFault)))
  }

  /** What a scale-down of the object saves; one that only would have been written saves nothing. */
  function Saving(scaling: ScalingKind, target: Option<Replicas>, o: Object, dryRun: bool): int {
    var d := DecisionOf(scaling, target);
    if d.Lower? && Apply(d, o).report.Success? && !(dryRun && SendsUpdate(d, o)) then Apply(d, o).report.value.saved
    else 0
  }

  /** The copy is the object of a version as it was written, and there is nothing to send for it. */
  ghost predicate NothingToWrite(server: ApiServer, workload: Workload, d: Decision)
    reads server, workload
  {
    && workload.version < |server.system.history|
    && workload.Contents() == server.system.history[workload.version]
    && !SendsUpdate(d, workload.Contents())
  }

  /** The copy is the object of a version, and the history has only grown since. */
  ghost predicate HasRead(start: System, end: System, i: nat) {
    var copy := start.CopyOf(i);
    && copy.Clean? && copy.version < |start.history| && copy.o == start.history[copy.version]
    && start.history <= end.history
  }

  /** One try: which error it reports, and what it leaves on the server. */
  ghost predicate TryFits(start: System, end: System, i: nat, scaling: ScalingKind, target: Option<Replicas>,
                          dryRun: bool, turn: Turn, a: Attempt)
    requires start.history != [] && end.history != [] && start.CopyOf(i).Clean?
  {
    var d, copy := DecisionOf(scaling, target), start.CopyOf(i);
    var sends := Acts(scaling, target) && !dryRun && SendsUpdate(d, copy.o);
    && start.history <= end.history
    && (a.error == Some(InvalidError) <==> scaling == ScalingMultiple)
    && (a.error == Some(ConflictError) <==> Acts(scaling, target) && !dryRun && Refused(start, i, d, turn))
    && (a.error == Some(GenericError) <==> CannotScale(scaling, target, copy.o, dryRun, turn.updateFault))
    && (a.error == Some(ConflictError) ==> !a.committed && end == Next(Arrived(start, i, d, turn), Commit(i)))
    && (a.error == None ==> (a.committed <==> sends))
    && (a.committed ==>
          sends && end.Current() == Apply(d, copy.o).after && |end.history| == copy.version + 2)
    && (!sends ==> end.history == start.history)
    && a.saved == if a.error == None then Saving(scaling, target, copy.o, dryRun) else 0
  }

  /** The counter of a workload that was dealt with. */
  function SuccessCounter(scaling: ScalingKind): Counter {
    match scaling
    case ScalingDown => Downscaled
    case ScalingUp => Upscaled
    case _ => Excluded
  }

  /** `target` is None when no scope sets the downscale replicas. */
  method ScaleWorkload(server: ApiServer, i: nat, scaling: ScalingKind, target: Option<Replicas>, workload: Workload,
                       metrics: NamespaceMetrics, dryRun: bool, turn: Turn, ghost base: nat)
    returns (a: Attempt)
    requires server.Valid() && base <= |server.system.log|
    requires server.system.CopyOf(i) == Clean(workload.version, workload.Contents())
    requires forall e <- turn.beforeUpdate :: !ActsAs(e, i)
    modifies server, workload`spec, workload`annotations, metrics
    ensures server.Valid() && Grew(old(server.trace), server.trace, i, DecisionOf(scaling, target))
    ensures base <= |server.system.log|
    ensures OwnWrites(server.system.log, base, i) ==
            OwnWrites(old(server.system.log), base, i) + if a.committed then 1 else 0
    ensures old(server.system).history != [] && server.system.history != []
    ensures TryFits(old(server.system), server.system, i, scaling, target, dryRun, turn, a)
    ensures a.error == Some(ConflictError) ==> !a.committed
    ensures Acts(scaling, target) && a.error == None && !dryRun && !a.committed ==>
              && !SendsUpdate(DecisionOf(scaling, target), old(workload.Contents()))
              && workload.Contents() == old(workload.Contents())
              && server.system.history == old(server.system.history)
              && NothingToWrite(server, workload, DecisionOf(scaling, target))
    ensures workload.Contents() == if Acts(scaling, target)
                                   then Apply(DecisionOf(scaling, target), old(workload.Contents())).after
                                   else old(workload.Contents())
    ensures metrics.Counts() ==
            if a.error == None then old(metrics.Counts()).Bump(SuccessCounter(scaling)).Save(a.saved)
            else old(metrics.Counts())
  {
    hide Apply, Refused, Arrived, Grew, OwnWrites, Run, Next, Tally.Bump, NamespaceMetrics.Counts;
    var d := DecisionOf(scaling, target);
    CleanCopyIsHistory(server.origin, server.trace, i);
    GrewNothing(server.trace, i, d);
    match scaling
    case ScalingNone =>
      metrics.Increment(Excluded);
      return Attempt(None, 0, false);
    case ScalingIgnore =>
      metrics.Increment(Excluded);
      return Attempt(None, 0, false);
    case ScalingIncomplete =>
      metrics.Increment(Excluded);
      return Attempt(None, 0, false);
    case ScalingMultiple =>
      return Attempt(Some(InvalidError), 0, false);
    case ScalingDown =>
      if target.None? {
        return Attempt(Some(GenericError), 0, false);
      }
      SkipChangesNothing(d, workload.Contents());
      a := ScaleAndCommit(server, i, d, workload, dryRun, turn, base);
      if a.error == None {
        metrics.Increment(Downscaled);
        metrics.IncrementSavedResources(a.saved);
      }
    case ScalingUp =>
      SkipChangesNothing(d, workload.Contents());
      a := ScaleAndCommit(server, i, d, workload, dryRun, turn, base);
      if a.error == None {
        metrics.Increment(Upscaled);
      }
  }

  // ----- retrying -----

  datatype Ending = Handled | BadScaling | OtherError | OutOfRetries | RegetFailed

  datatype ScalingReport = ScalingReport(ending: Ending, attempts: nat, committed: bool, saved: int)

  function MaxAttempts(maxRetries: int): nat {
    if maxRetries < 0 then 0 else maxRetries + 1
  }

  /** What one call of AttemptScaling leaves in the counters. */
  function CountedAttempt(before: Tally, scaling: ScalingKind, r: ScalingReport): Tally {
    match r.ending
    case Handled => before.Bump(SuccessCounter(scaling)).Save(r.saved)
    case BadScaling => before.Bump(InvalidScaling)
    case OtherError => before.Bump(Generic)
    case OutOfRetries => before.Bump(Conflicts)
    case RegetFailed => before
  }

  /** The update of turn k is refused and the object is read again. */
  ghost predicate Retries(s: System, i: nat, d: Decision, world: World, k: nat)
    requires s.history != []
  {
    Refused(TurnStart(s, i, d, world, k), i, d, world(k)) && !world(k).regetFails
  }

  ghost predicate RetriesUpTo(s: System, i: nat, d: Decision, world: World, n: int)
    requires s.history != []
  {
    forall k: nat :: k < n ==> Retries(s, i, d, world, k)
  }

  /** How the last turn ends, given the system it starts from and the one it leaves. */
  ghost predicate LastTurnFits(start: System, end: System, i: nat, scaling: ScalingKind, target: Option<Replicas>,
                               dryRun: bool, turn: Turn, r: ScalingReport)
    requires start.history != [] && end.history != []
  {
    var d := DecisionOf(scaling, target);
    var copy := start.CopyOf(i);
    && HasRead(start, end, i)
    && (var refused := Acts(scaling, target) && !dryRun && Refused(start, i, d, turn);
        && (r.ending == RegetFailed <==> refused && turn.regetFails)
        && (r.ending == OutOfRetries <==> refused && !turn.regetFails))
    && (r.ending == BadScaling <==> scaling == ScalingMultiple)
    && (r.ending == OtherError <==> CannotScale(scaling, target, copy.o, dryRun, turn.updateFault))
    && (r.committed ==> r.ending in {Handled, OtherError})
    && (var sends := Acts(scaling, target) && !dryRun && SendsUpdate(d, copy.o);
        && (!sends ==> end.history == start.history && !r.committed)
        && (r.ending == Handled ==> (r.committed <==> sends)))
    && (r.committed ==> end.Current() == Apply(d, copy.o).after && |end.history| == copy.version + 2)
    && (r.ending == Handled ==> r.saved == Saving(scaling, target, copy.o, dryRun))
  }

  /** How the turns of an attempt follow from what happens around them: all turns but the last are refused and
      read again; it runs out exactly when that happens in every allowed turn. */
  ghost predicate AttemptFits(s: System, end: System, i: nat, scaling: ScalingKind, target: Option<Replicas>,
                              maxRetries: int, dryRun: bool, world: World, r: ScalingReport)
    requires s.history != [] && end.history != []
  {
    var d := DecisionOf(scaling, target);
    && r.attempts <= MaxAttempts(maxRetries)
    && (r.attempts == 0 <==> maxRetries < 0)
    && (r.attempts > 1 ==> Acts(scaling, target) && !dryRun)
    && RetriesUpTo(s, i, d, world, r.attempts - 1)
    && (r.ending == OutOfRetries ==> r.attempts == MaxAttempts(maxRetries))
    && (if r.attempts == 0 then r.ending == OutOfRetries && !r.committed && end == s
        else
          var last := r.attempts - 1;
          LastTurnFits(TurnStart(s, i, d, world, last), end, i, scaling, target, dryRun, world(last), r))
  }

  /** How an attempt ends after a try that is not refused. */
  function EndingOf(a: Attempt): Ending {
    match a.error
    case None => Handled
    case Some(InvalidError) => BadScaling
    case Some(_) => OtherError
  }

  method RecordScalingError(error: ScaleError, metrics: NamespaceMetrics)
    modifies metrics
    ensures metrics.Counts() == old(metrics.Counts()).Bump(if error == InvalidError then InvalidScaling else Generic)
  {
    if error == InvalidError {
      metrics.Increment(InvalidScaling);
      return;
    }
    metrics.Increment(Generic);
  }

  /** Before turn k: what instance i has done so far is k refused updates, each followed by a re-read. */
  ghost predicate InTurn(server: ApiServer, i: nat, workload: Workload, s: System, d: Decision, world: World, k: nat,
                         trace: seq<Step>, base: nat)
    reads server, workload
  {
    && server.Valid() && Grew(trace, server.trace, i, d)
    && base <= |server.system.log| && OwnWrites(server.system.log, base, i) == 0
    && server.system.CopyOf(i) == Clean(workload.version, workload.Contents())
    && s.history != [] && server.system == TurnStart(s, i, d, world, k) && RetriesUpTo(s, i, d, world, k)
  }

  /** One turn of the retry loop: a try, and a re-read if it is refused. It has no report when another turn is due. */
  method TakeTurn(server: ApiServer, i: nat, scaling: ScalingKind, target: Option<Replicas>, workload: Workload,
                  metrics: NamespaceMetrics, maxRetries: int, dryRun: bool, world: World, retry: nat, ghost s: System,
                  ghost trace: seq<Step>, ghost base: nat)
    returns (r: Option<ScalingReport>)
    requires OthersOnly(world, i) && retry <= maxRetries && (retry > 0 ==> Acts(scaling, target) && !dryRun)
    requires InTurn(server, i, workload, s, DecisionOf(scaling, target), world, retry, trace, base)
    modifies server, workload, metrics
    ensures s.history != [] && server.system.history != []
    ensures r.None? ==>
              && InTurn(server, i, workload, s, DecisionOf(scaling, target), world, retry + 1, trace, base)
              && Acts(scaling, target) && !dryRun && metrics.Counts() == old(metrics.Counts())
    ensures r.None? && retry == maxRetries ==>
              AttemptFits(s, server.system, i, scaling, target, maxRetries, dryRun, world,
                          ScalingReport(OutOfRetries, retry + 1, false, 0))
    ensures r.Some? ==>
              && server.Valid() && Grew(trace, server.trace, i, DecisionOf(scaling, target))
              && base <= |server.system.log|
              && OwnWrites(server.system.log, base, i) == (if r.value.committed then 1 else 0)
              && AttemptFits(s, server.system, i, scaling, target, maxRetries, dryRun, world, r.value)
              && metrics.Counts() == CountedAttempt(old(metrics.Counts()), scaling, r.value)
    ensures r.Some? && r.value.ending == Handled && Acts(scaling, target) && !dryRun && !r.value.committed ==>
              NothingToWrite(server, workload, DecisionOf(scaling, target))
  {
    hide Apply, Grew, Run, TryFits, AttemptFits, TurnStart, RetriesUpTo, OwnWrites, OthersOnly, Next, Acts, DecisionOf,
         NothingToWrite, SendsUpdate, System.CopyOf, Tally.Save, Tally.Bump, NamespaceMetrics.Counts;
    var d := DecisionOf(scaling, target);
    OthersInTurn(world, i, retry);
    CleanCopyIsHistory(server.origin, server.trace, i);
    ghost var before := server.trace;
    var a := ScaleWorkload(server, i, scaling, target, workload, metrics, dryRun, world(retry), base);
    GrewTwice(trace, before, server.trace, i, d);
    if a.error != Some(ConflictError) {
      if a.error.Some? {
        RecordScalingError(a.error.value, metrics);
      }
      SettledTurn(s, server.system, i, scaling, target, maxRetries, dryRun, world, a, retry);
      return Some(ScalingReport(EndingOf(a), retry + 1, a.committed, a.saved));
    }
    ghost var middle, refused := server.trace, server.system;
    var ok := Reget(server, i, d, workload, world(retry), base);
    GrewTwice(trace, middle, server.trace, i, d);
    RefusedTurn(s, refused, server.system, i, scaling, target, maxRetries, dryRun, world, a, retry);
    return if ok then None else Some(ScalingReport(RegetFailed, retry + 1, false, 0));
  }

  method AttemptScaling(server: ApiServer, i: nat, scaling: ScalingKind, target: Option<Replicas>, workload: Workload,
                        metrics: NamespaceMetrics, maxRetries: int, dryRun: bool, world: World)
    returns (r: ScalingReport)
    requires server.Valid() && OthersOnly(world, i)
    requires server.system.CopyOf(i) == Clean(workload.version, workload.Contents())
    modifies server, workload, metrics
    // it is a run of instance i with this one decision
    ensures server.Valid() && Grew(old(server.trace), server.trace, i, DecisionOf(scaling, target))
    // at most one write, and bounded attempts
    ensures |old(server.system.log)| <= |server.system.log|
    ensures OwnWrites(server.system.log, |old(server.system.log)|, i) == if r.committed then 1 else 0
    ensures r.attempts <= MaxAttempts(maxRetries)
    ensures r.committed ==> Acts(scaling, target) && !dryRun && r.ending in {Handled, OtherError}
    // handled without a write means there was nothing to write
    ensures r.ending == Handled && Acts(scaling, target) && !dryRun && !r.committed ==>
              NothingToWrite(server, workload, DecisionOf(scaling, target))
    // nothing to write when it starts means no write
    ensures !SendsUpdate(DecisionOf(scaling, target), old(workload.Contents())) ==> !r.committed
    // how it ended
    ensures r.ending == BadScaling <==> scaling == ScalingMultiple && maxRetries >= 0
    ensures r.ending == OutOfRetries ==> r.attempts == MaxAttempts(maxRetries)
    ensures r.ending in {OutOfRetries, RegetFailed} && maxRetries >= 0 ==> Acts(scaling, target)
    // every turn and its end
    ensures old(server.system).history != [] && server.system.history != []
    ensures AttemptFits(old(server.system), server.system, i, scaling, target, maxRetries, dryRun, world, r)
    ensures metrics.Counts() == CountedAttempt(old(metrics.Counts()), scaling, r)
  {
    hide Apply, Grew, Run, AttemptFits, TurnStart, RetriesUpTo, OwnWrites, OthersOnly, Acts, DecisionOf,
         NothingToWrite, SendsUpdate, InTurn, Tally.Save, Tally.Bump, NamespaceMetrics.Counts;
    ghost var s, trace, base := server.system, server.trace, |server.system.log|;
    FirstTurn(s, i, scaling, target, maxRetries, dryRun, world);
    NothingDoneYet(server, i, workload, DecisionOf(scaling, target), world);
    var retry := 0;
    while retry < maxRetries + 1
      invariant 0 <= retry <= MaxAttempts(maxRetries) && server.system.history != []
      invariant InTurn(server, i, workload, s, DecisionOf(scaling, target), world, retry, trace, base)
      invariant retry > 0 ==> Acts(scaling, target) && !dryRun
      invariant metrics.Counts() == old(metrics.Counts())
      invariant retry == MaxAttempts(maxRetries) ==>
                  AttemptFits(s, server.system, i, scaling, target, maxRetries, dryRun, world,
                              ScalingReport(OutOfRetries, retry, false, 0))
    {
      var last := TakeTurn(server, i, scaling, target, workload, metrics, maxRetries, dryRun, world, retry, s, trace,
                           base);
      if last.Some? {
        AttemptMeans(s, server.system, i, scaling, target, maxRetries, dryRun, world, last.value);
        return last.value;
      }
      retry := retry + 1;
    }
    InTurnMeans(server, i, workload, s, DecisionOf(scaling, target), world, retry, trace, base);
    metrics.Increment(Conflicts);
    r := ScalingReport(OutOfRetries, retry, false, 0);
    AttemptMeans(s, server.system, i, scaling, target, maxRetries, dryRun, world, r);
  }

  lemma NothingDoneYet(server: ApiServer, i: nat, workload: Workload, d: Decision, world: World)
    requires server.Valid() && server.system.CopyOf(i) == Clean(workload.version, workload.Contents())
    ensures server.system.history != []
    ensures InTurn(server, i, workload, server.system, d, world, 0, server.trace, |server.system.log|)
  {
    hide Run;
    GrewNothing(server.trace, i, d);
    NothingWritten(server.system.log, i);
  }

  lemma InTurnMeans(server: ApiServer, i: nat, workload: Workload, s: System, d: Decision, world: World, k: nat,
                    trace: seq<Step>, base: nat)
    requires InTurn(server, i, workload, s, d, world, k, trace, base)
    ensures server.Valid() && Grew(trace, server.trace, i, d)
    ensures base <= |server.system.log| && OwnWrites(server.system.log, base, i) == 0
  {
    hide Run, Grew, OwnWrites, TurnStart, RetriesUpTo;
  }

  /** What follows for the report. */
  lemma AttemptMeans(s: System, end: System, i: nat, scaling: ScalingKind, target: Option<Replicas>, maxRetries: int,
                     dryRun: bool, world: World, r: ScalingReport)
    requires s.history != [] && end.history != [] && s.CopyOf(i).Clean?
    requires AttemptFits(s, end, i, scaling, target, maxRetries, dryRun, world, r)
    ensures r.attempts <= MaxAttempts(maxRetries)
    ensures r.committed ==> Acts(scaling, target) && !dryRun && r.ending in {Handled, OtherError}
    ensures r.ending == BadScaling <==> scaling == ScalingMultiple && maxRetries >= 0
    ensures r.ending == OutOfRetries ==> r.attempts == MaxAttempts(maxRetries)
    ensures r.ending in {OutOfRetries, RegetFailed} && maxRetries >= 0 ==> Acts(scaling, target)
    ensures !SendsUpdate(DecisionOf(scaling, target), s.CopyOf(i).o) ==> !r.committed
  {
    hide Apply, Refused, TurnStart, Run, RetriesUpTo, CannotScale, HasRead;
    NothingToSend(s, end, i, scaling, target, maxRetries, dryRun, world, r);
  }

  /** With nothing to send the first turn is the last, and it does not write. */
  lemma NothingToSend(s: System, end: System, i: nat, scaling: ScalingKind, target: Option<Replicas>, maxRetries: int,
                      dryRun: bool, world: World, r: ScalingReport)
    requires s.history != [] && end.history != [] && s.CopyOf(i).Clean?
    requires AttemptFits(s, end, i, scaling, target, maxRetries, dryRun, world, r)
    ensures !SendsUpdate(DecisionOf(scaling, target), s.CopyOf(i).o) ==> !r.committed && r.attempts <= 1
  {
    hide Apply, SendsUpdate, CannotScale, TurnStart;
    var d := DecisionOf(scaling, target);
    FirstTurn(s, i, scaling, target, maxRetries, dryRun, world);
    if r.attempts > 1 {
      // a refused update is one that was sent
      assert Retries(s, i, d, world, 0);
    }
  }

  lemma NothingWritten(log: seq<Write>, i: nat)
    ensures OwnWrites(log, |log|, i) == 0
  {
  }

  lemma OthersInTurn(world: World, i: nat, k: nat)
    requires OthersOnly(world, i)
    ensures forall e <- world(k).beforeUpdate :: !ActsAs(e, i)
    ensures forall e <- world(k).beforeReget :: !ActsAs(e, i)
  {
  }

  lemma FirstTurn(s: System, i: nat, scaling: ScalingKind, target: Option<Replicas>, maxRetries: int, dryRun: bool,
                  world: World)
    requires s.history != []
    ensures var d := DecisionOf(scaling, target);
            TurnStart(s, i, d, world, 0) == s && RetriesUpTo(s, i, d, world, 0)
    ensures maxRetries < 0 ==>
              AttemptFits(s, s, i, scaling, target, maxRetries, dryRun, world, ScalingReport(OutOfRetries, 0, false, 0))
  {
    hide Retries;
  }

  /** A try that is not refused is the last. */
  lemma SettledTurn(s: System, end: System, i: nat, scaling: ScalingKind, target: Option<Replicas>, maxRetries: int,
                    dryRun: bool, world: World, a: Attempt, k: nat)
    requires s.history != [] && end.history != [] && k <= maxRetries && a.error != Some(ConflictError)
    requires var d := DecisionOf(scaling, target);
             && RetriesUpTo(s, i, d, world, k) && (k > 0 ==> Acts(scaling, target) && !dryRun)
             && var start := TurnStart(s, i, d, world, k);
                && HasRead(start, start, i)
                && TryFits(start, end, i, scaling, target, dryRun, world(k), a)
    ensures AttemptFits(s, end, i, scaling, target, maxRetries, dryRun, world,
                        ScalingReport(EndingOf(a), k + 1, a.committed, a.saved))
  {
    hide Apply, Refused, TurnStart, CannotScale, Retries;
    RefusedCanScale(TurnStart(s, i, DecisionOf(scaling, target), world, k), i, scaling, target, dryRun, world(k));
  }

  /** A refusal is none of the other errors. */
  lemma RefusedCanScale(start: System, i: nat, scaling: ScalingKind, target: Option<Replicas>, dryRun: bool,
                        turn: Turn)
    requires start.history != [] && start.CopyOf(i).Clean?
    ensures Acts(scaling, target) && !dryRun && Refused(start, i, DecisionOf(scaling, target), turn) ==>
              SendsUpdate(DecisionOf(scaling, target), start.CopyOf(i).o) &&
              !CannotScale(scaling, target, start.CopyOf(i).o, dryRun, turn.updateFault)
  {
    hide Apply;
  }

  /** A refused try is followed by a re-read, and by another turn if that works and one is left. */
  lemma RefusedTurn(s: System, refused: System, end: System, i: nat, scaling: ScalingKind, target: Option<Replicas>,
                    maxRetries: int, dryRun: bool, world: World, a: Attempt, k: nat)
    requires s.history != [] && refused.history != [] && k <= maxRetries && a.error == Some(ConflictError)
    requires var d := DecisionOf(scaling, target);
             && RetriesUpTo(s, i, d, world, k) && (k > 0 ==> Acts(scaling, target) && !dryRun)
             && var start := TurnStart(s, i, d, world, k);
                && HasRead(start, start, i)
                && TryFits(start, refused, i, scaling, target, dryRun, world(k), a)
    requires var reread := Run(refused, world(k).beforeReget);
             end == if world(k).regetFails then reread else Next(reread, Read(i))
    ensures end.history != [] && Acts(scaling, target) && !dryRun
    ensures world(k).regetFails ==>
              AttemptFits(s, end, i, scaling, target, maxRetries, dryRun, world,
                          ScalingReport(RegetFailed, k + 1, false, 0))
    ensures var d := DecisionOf(scaling, target);
            !world(k).regetFails ==> end == TurnStart(s, i, d, world, k + 1) && RetriesUpTo(s, i, d, world, k + 1)
    ensures !world(k).regetFails && k == maxRetries ==>
              AttemptFits(s, end, i, scaling, target, maxRetries, dryRun, world,
                          ScalingReport(OutOfRetries, k + 1, false, 0))
  {
    hide Apply, Refused, TurnStart, CannotScale, RetriesUpTo;
    var d := DecisionOf(scaling, target);
    var start := TurnStart(s, i, d, world, k);
    RefusedLast(start, refused, end, i, scaling, target, dryRun, world(k), a, k + 1);
    if !world(k).regetFails { NextTurn(s, i, d, world, k); }
  }

  lemma RefusedLast(start: System, refused: System, end: System, i: nat, scaling: ScalingKind,
                    target: Option<Replicas>, dryRun: bool, turn: Turn, a: Attempt, attempts: nat)
    requires start.history != [] && refused.history != [] && HasRead(start, start, i)
    requires TryFits(start, refused, i, scaling, target, dryRun, turn, a) && a.error == Some(ConflictError)
    requires var reread := Run(refused, turn.beforeReget);
             end == if turn.regetFails then reread else Next(reread, Read(i))
    ensures end.history != []
    ensures Acts(scaling, target) && !dryRun && Refused(start, i, DecisionOf(scaling, target), turn)
    ensures !turn.regetFails ==> end == Reread(start, i, DecisionOf(scaling, target), turn)
    ensures LastTurnFits(start, end, i, scaling, target, dryRun, turn,
                         ScalingReport(if turn.regetFails then RegetFailed else OutOfRetries, attempts, false, 0))
  {
    hide Apply, Refused;
    HistoryGrows(refused, turn.beforeReget);
    RefusedCanScale(start, i, scaling, target, dryRun, turn);
  }

  lemma NextTurn(s: System, i: nat, d: Decision, world: World, k: nat)
    requires s.history != [] && RetriesUpTo(s, i, d, world, k)
    requires Refused(TurnStart(s, i, d, world, k), i, d, world(k)) && !world(k).regetFails
    ensures TurnStart(s, i, d, world, k + 1) == Reread(TurnStart(s, i, d, world, k), i, d, world(k))
    ensures RetriesUpTo(s, i, d, world, k + 1)
  {
    hide Apply, Refused, Reread;
  }

  lemma GrewNothing(trace: seq<Step>, i: nat, d: Decision)
    ensures Grew(trace, trace, i, d)
  {
  }

  // ----- what an attempt achieves -----

  /** Nobody writes before the update of turn k, and if k is the first turn the copy is up to date. */
  predicate Undisturbed(s: System, i: nat, world: World, k: nat) {
    Quiet(world(k)) && (k == 0 ==> UpToDate(s, i))
  }

  lemma UndisturbedIsNotRefused(s: System, i: nat, d: Decision, world: World, k: nat)
    requires s.history != [] && Undisturbed(s, i, world, k)
    ensures !Refused(TurnStart(s, i, d, world, k), i, d, world(k))
  {
    hide Refused, Quiet, UpToDate, Reread;
    if k > 0 { RereadIsUpToDate(s, i, d, world, k); }
    QuietIsNotRefused(TurnStart(s, i, d, world, k), i, d, world(k));
  }

  /** No attempt goes beyond an undisturbed turn, so it runs out of retries only if somebody wrote in every turn. */
  lemma DisturbedToRunOut(s: System, end: System, i: nat, scaling: ScalingKind, target: Option<Replicas>,
                          maxRetries: int, dryRun: bool, world: World, r: ScalingReport, k: nat)
    requires s.history != [] && end.history != []
    requires AttemptFits(s, end, i, scaling, target, maxRetries, dryRun, world, r)
    requires k <= maxRetries && Undisturbed(s, i, world, k)
    ensures r.attempts <= k + 1 && r.ending != OutOfRetries
  {
    hide Apply, Refused, Undisturbed, TurnStart, CannotScale, HasRead;
    var d := DecisionOf(scaling, target);
    UndisturbedIsNotRefused(s, i, d, world, k);
    assert r.attempts > k + 1 ==> Retries(s, i, d, world, k);
  }

  /** Running out means that the update of every one of the allowed turns was refused. */
  lemma RunsOutAfterAllTurns(s: System, end: System, i: nat, scaling: ScalingKind, target: Option<Replicas>,
                             maxRetries: int, dryRun: bool, world: World, r: ScalingReport)
    requires s.history != [] && end.history != []
    requires AttemptFits(s, end, i, scaling, target, maxRetries, dryRun, world, r)
    ensures r.attempts <= if maxRetries < 0 then 0 else maxRetries + 1
    ensures r.ending == OutOfRetries <==>
            || maxRetries < 0
            || (Acts(scaling, target) && !dryRun &&
                forall k: nat :: k < maxRetries + 1 ==> Retries(s, i, DecisionOf(scaling, target), world, k))
  {
    hide Apply, Refused, TurnStart, CannotScale, HasRead;
    var d := DecisionOf(scaling, target);
    if maxRetries >= 0 {
      var last := r.attempts - 1;
      assert r.ending == OutOfRetries <==> Acts(scaling, target) && !dryRun && Retries(s, i, d, world, last);
      if r.ending == OutOfRetries {
        forall k: nat | k < maxRetries + 1 ensures Retries(s, i, d, world, k) {
          if k < last { assert RetriesUpTo(s, i, d, world, last); }
        }
      }
    }
  }

  /** No call fails, whatever the turn. */
  ghost predicate NoFaults(world: World) {
    forall k: nat :: world(k).updateFault == NoFault && !world(k).regetFails
  }

  /** Progress: when no call fails, nobody writes before the update in some allowed turn, and the decision can be
      carried out on whatever the server held, the attempt is handled. It has written exactly if there was
      something to send, and then the server holds the scaling of the object last read. */
  lemma Progress(s: System, end: System, i: nat, scaling: ScalingKind, target: Option<Replicas>, maxRetries: int,
                 dryRun: bool, world: World, r: ScalingReport, k: nat)
    requires s.history != [] && end.history != []
    requires AttemptFits(s, end, i, scaling, target, maxRetries, dryRun, world, r)
    requires NoFaults(world) && k <= maxRetries && Undisturbed(s, i, world, k)
    requires Acts(scaling, target)
    requires forall v :: 0 <= v < |end.history| ==> Apply(DecisionOf(scaling, target), end.history[v]).report.Success?
    ensures r.ending == Handled && 0 < r.attempts <= k + 1
    ensures var d := DecisionOf(scaling, target);
            var start := TurnStart(s, i, d, world, r.attempts - 1);
            && HasRead(start, end, i)
            && (r.committed <==> !dryRun && SendsUpdate(d, start.CopyOf(i).o))
            && (r.committed ==> end.Current() == Apply(d, start.CopyOf(i).o).after)
            && (!r.committed ==> end.history == start.history)
  {
    hide Apply, Refused, Undisturbed, TurnStart, SendsUpdate;
    DisturbedToRunOut(s, end, i, scaling, target, maxRetries, dryRun, world, r, k);
    var start := TurnStart(s, i, DecisionOf(scaling, target), world, r.attempts - 1);
    assert start.CopyOf(i).o == end.history[start.CopyOf(i).version];
  }

  /** An undisturbed first turn leaves the server with the scaled object, if the decision asks for any scaling. */
  lemma CalmAttempt(s: System, end: System, i: nat, scaling: ScalingKind, target: Option<Replicas>, maxRetries: int,
                    world: World, r: ScalingReport)
    requires s.history != [] && end.history != [] && maxRetries >= 0
    requires AttemptFits(s, end, i, scaling, target, maxRetries, false, world, r)
    requires NoFaults(world) && Undisturbed(s, i, world, 0) && s.CopyOf(i).o == s.Current()
    ensures end.Current() ==
            if Acts(scaling, target) then Apply(DecisionOf(scaling, target), s.Current()).after else s.Current()
    ensures r.attempts == 1 && r.ending in {Handled, OtherError, BadScaling}
    ensures Acts(scaling, target) ==>
              (r.ending == Handled <==> Apply(DecisionOf(scaling, target), s.Current()).report.Success?)
  {
    hide Apply, Refused, TurnStart;
    FirstTurn(s, i, scaling, target, maxRetries, false, world);
    DisturbedToRunOut(s, end, i, scaling, target, maxRetries, false, world, r, 0);
    UndisturbedIsNotRefused(s, i, DecisionOf(scaling, target), world, 0);
    SkipChangesNothing(DecisionOf(scaling, target), s.Current());
  }

  /** The counter that an attempt raises: for what was done, for what was asked and not done, or for the error. */
  lemma AttemptIsCounted(before: Tally, scaling: ScalingKind, r: ScalingReport)
    ensures var after := CountedAttempt(before, scaling, r);
            var handled := r.ending == Handled;
            && after.downscaled == before.downscaled + (if handled && scaling == ScalingDown then 1 else 0)
            && after.upscaled == before.upscaled + (if handled && scaling == ScalingUp then 1 else 0)
            && after.excluded ==
               before.excluded + (if handled && scaling != ScalingDown && scaling != ScalingUp then 1 else 0)
            && after.invalidScaling == before.invalidScaling + (if r.ending == BadScaling then 1 else 0)
            && after.generic == before.generic + (if r.ending == OtherError then 1 else 0)
            && after.conflicts == before.conflicts + (if r.ending == OutOfRetries then 1 else 0)
            && after.workloadScope == before.workloadScope && after.namespaceScope == before.namespaceScope
            && after.saved == before.saved + (if handled then r.saved else 0)
  {
  }

  /** A clean copy is the object of its version, in every reachable state. */
  lemma CleanCopyIsHistory(o: Object, trace: seq<Step>, i: nat)
    ensures var s := Run(Start(o), trace);
            s.CopyOf(i).Clean? ==> s.CopyOf(i).version < |s.history| && s.CopyOf(i).o == s.history[s.CopyOf(i).version]
  {
    hide Apply;
    RunKeepsConsistent(Start(o), trace);
    var s := Run(Start(o), trace);
    if s.CopyOf(i).Clean? { assert CopyAgrees(s.copies[i], s.history); }
  }
}
