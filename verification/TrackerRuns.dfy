/** What the tracker writer guarantees in every interleaving. */
module TrackerRuns {
  import opened TrackerModel

  /** A flush in flight carries a target that was set, not older than the one last applied. */
  ghost predicate InFlightAgrees(s: Tracker)
    requires |s.targets| == s.targetRevision + 1
  {
    match s.io
    case Taken(_, frame, revision) =>
      s.appliedRevision <= revision <= s.targetRevision && s.targets[revision] == frame
    case Wrote(_, revision) =>
      && s.appliedRevision <= revision <= s.targetRevision
      && |s.written| > 0 && s.written[|s.written| - 1] == s.targets[revision]
    case _ => true
  }

  ghost predicate Consistent(s: Tracker) {
    && |s.targets| == s.targetRevision + 1 && s.targets[s.targetRevision] == s.target
    && -1 <= s.appliedRevision <= s.targetRevision
    && InFlightAgrees(s)
  }

  lemma NewIsConsistent(safe: Pose)
    ensures Consistent(New(safe))
  {
  }

  ghost predicate Extends(s: Tracker, n: Tracker) {
    && n.safe == s.safe && (s.closed ==> n.closed)
    && s.appliedRevision <= n.appliedRevision && s.targetRevision <= n.targetRevision
    && s.targets <= n.targets && s.written <= n.written
  }

  /** A step from `s` to `n` keeps the invariant and takes nothing back. */
  ghost predicate Grows(s: Tracker, n: Tracker) {
    Consistent(n) && Extends(s, n)
  }

  lemma RetargetExtends(s: Tracker, frame: Pose, mode: Mode)
    requires Consistent(s)
    ensures Grows(s, Retarget(s, frame, mode))
  {
  }

  lemma FlushWriteExtends(s: Tracker, t: nat, result: SinkResult)
    requires Consistent(s)
    ensures Grows(s, WriteTaken(s, t, result))
  {
  }

  lemma FlushEndsExtend(s: Tracker, t: nat)
    requires Consistent(s)
    ensures Grows(s, TakeTarget(s, t))
    ensures Grows(s, FinishFlush(s, t))
  {
  }

  lemma NeutralizeExtends(s: Tracker, t: nat, result: SinkResult)
    requires Consistent(s)
    ensures Grows(s, BeginNeutralize(s, t))
    ensures Grows(s, WriteNeutral(s, t, result))
    ensures Grows(s, Record(s, t))
  {
    RetargetExtends(s, s.safe, SafeMode);
  }

  lemma StartExtends(s: Tracker, t: nat, result: SinkResult)
    requires Consistent(s)
    ensures Grows(s, BeginStart(s, t))
    ensures Grows(s, WriteInitial(s, t, result))
    ensures Grows(s, FinishStart(s, t))
  {
  }

  lemma CloseExtends(s: Tracker, t: nat, errors: bool)
    requires Consistent(s)
    ensures Grows(s, BeginClose(s, t))
    ensures Grows(s, CloseTheSink(s, t))
    ensures Grows(s, RecordClose(s, t, errors))
  {
  }

  lemma StepExtends(s: Tracker, e: Event)
    requires Consistent(s)
    ensures Grows(s, Step(s, e))
  {
    match e
    case Send(frame) => RetargetExtends(s, frame, ActionMode);
    case FlushTake(t) => FlushEndsExtend(s, t);
    case FlushWrite(t, result) => FlushWriteExtends(s, t, result);
    case FlushFinish(t) => FlushEndsExtend(s, t);
    case NeutralizeTarget(t) => NeutralizeExtends(s, t, Delivered);
    case NeutralizeWrite(t, result) => NeutralizeExtends(s, t, result);
    case RecordFailure(t) => NeutralizeExtends(s, t, Delivered);
    case StartBegin(t) => StartExtends(s, t, Delivered);
    case StartWrite(t, result) => StartExtends(s, t, result);
    case StartFinish(t) => StartExtends(s, t, Delivered);
    case CloseBegin(t) => CloseExtends(s, t, false);
    case CloseSink(t) => CloseExtends(s, t, false);
    case CloseRecord(t, errors) => CloseExtends(s, t, errors);
  }

  /**
   The applied revision never decreases and never passes the target revision, whatever the interleaving;
   targets and device writes are only ever added.
   */
  lemma {:induction false} RunExtends(s: Tracker, es: seq<Event>)
    requires Consistent(s)
    ensures Grows(s, Run(s, es))
    ensures Run(s, es).appliedRevision <= Run(s, es).targetRevision
    decreases |es|
  {
    if es != [] {
      StepExtends(s, es[0]);
      RunExtends(Step(s, es[0]), es[1..]);
    }
  }

  /** A flush that reports a revision has just written the target of that revision, and nothing came after it. */
  lemma FlushReportsItsOwnWrite(safe: Pose, es: seq<Event>, t: nat)
    requires var s := Run(New(safe), es); s.io.Wrote? && s.io.t == t
    ensures
      var n := Step(Run(New(safe), es), FlushFinish(t));
      && 0 <= n.appliedRevision < |n.targets| && |n.written| > 0
      && n.written[|n.written| - 1] == n.targets[n.appliedRevision]
  {
    NewIsConsistent(safe);
    RunExtends(New(safe), es);
  }

  // ---- Linearisation of neutralize_pose ----

  predicate NoSends(es: seq<Event>) {
    forall e :: e in es ==> !e.Send?
  }

  predicate AllSafe(frames: seq<Pose>, safe: Pose) {
    forall f :: f in frames ==> f == safe
  }

  predicate StaleInFlight(s: Tracker) {
    s.io.Taken? && s.io.frame != s.safe
  }

  /** Whatever runs next without a new `send`, every further device write is the safe frame. */
  ghost predicate SafeFromNowOn(s: Tracker) {
    forall es: seq<Event> :: NoSends(es) ==>
      s.written <= Run(s, es).written && AllSafe(Run(s, es).written[|s.written|..], s.safe)
  }

  /** The target is safe unless nothing can read it any more, and no flush still carries another frame. */
  predicate Clean(s: Tracker) {
    (s.closed || s.target == s.safe) && !StaleInFlight(s)
  }

  /** A clean writer that writes at most safe frames stays clean. */
  ghost predicate StaysClean(s: Tracker, n: Tracker) {
    Clean(n) && n.safe == s.safe && s.written <= n.written && AllSafe(n.written[|s.written|..], s.safe)
  }

  lemma CleanFlushWrite(s: Tracker, t: nat, result: SinkResult)
    requires Clean(s)
    ensures StaysClean(s, WriteTaken(s, t, result))
  {
  }

  lemma CleanFlushEnds(s: Tracker, t: nat)
    requires Clean(s)
    ensures StaysClean(s, TakeTarget(s, t)) && StaysClean(s, FinishFlush(s, t))
  {
  }

  lemma CleanNeutralize(s: Tracker, t: nat, result: SinkResult)
    requires Clean(s)
    ensures StaysClean(s, BeginNeutralize(s, t)) && StaysClean(s, WriteNeutral(s, t, result))
            && StaysClean(s, Record(s, t))
  {
  }

  lemma CleanStart(s: Tracker, t: nat, result: SinkResult)
    requires Clean(s)
    ensures StaysClean(s, BeginStart(s, t)) && StaysClean(s, WriteInitial(s, t, result))
            && StaysClean(s, FinishStart(s, t))
  {
  }

  lemma CleanClose(s: Tracker, t: nat, errors: bool)
    requires Clean(s)
    ensures StaysClean(s, BeginClose(s, t)) && StaysClean(s, CloseTheSink(s, t))
            && StaysClean(s, RecordClose(s, t, errors))
  {
  }

  lemma CleanStep(s: Tracker, e: Event)
    requires Clean(s) && !e.Send?
    ensures StaysClean(s, Step(s, e))
  {
    match e
    case NeutralizeTarget(t) => CleanNeutralize(s, t, Delivered);
    case NeutralizeWrite(t, result) => CleanNeutralize(s, t, result);
    case RecordFailure(t) => CleanNeutralize(s, t, Delivered);
    case FlushTake(t) => CleanFlushEnds(s, t);
    case FlushWrite(t, result) => CleanFlushWrite(s, t, result);
    case FlushFinish(t) => CleanFlushEnds(s, t);
    case StartBegin(t) => CleanStart(s, t, Delivered);
    case StartWrite(t, result) => CleanStart(s, t, result);
    case StartFinish(t) => CleanStart(s, t, Delivered);
    case CloseBegin(t) => CleanClose(s, t, false);
    case CloseSink(t) => CleanClose(s, t, false);
    case CloseRecord(t, errors) => CleanClose(s, t, errors);
  }

  lemma {:induction false} CleanRun(s: Tracker, es: seq<Event>)
    requires Clean(s) && NoSends(es)
    ensures s.written <= Run(s, es).written && AllSafe(Run(s, es).written[|s.written|..], s.safe)
    decreases |es|
  {
    if es != [] {
      assert es[0] in es;
      var n := Step(s, es[0]);
      CleanStep(s, es[0]);
      CleanRun(n, es[1..]);
      assert Run(s, es).written[|s.written|..] == n.written[|s.written|..] + Run(n, es[1..]).written[|n.written|..];
    }
  }

  lemma CleanIsSafe(s: Tracker)
    requires Clean(s)
    ensures SafeFromNowOn(s)
  {
    forall es: seq<Event> | NoSends(es)
      ensures s.written <= Run(s, es).written && AllSafe(Run(s, es).written[|s.written|..], s.safe)
    {
      CleanRun(s, es);
    }
  }

  lemma TargetStep(s: Tracker, e: Event)
    requires s.target == s.safe && !e.Send?
    ensures Step(s, e).target == Step(s, e).safe == s.safe
  {
  }

  lemma {:induction false} TargetStaysSafe(s: Tracker, es: seq<Event>)
    requires s.target == s.safe && NoSends(es)
    ensures Run(s, es).target == Run(s, es).safe == s.safe
    decreases |es|
  {
    if es != [] {
      assert es[0] in es;
      TargetStep(s, es[0]);
      TargetStaysSafe(Step(s, es[0]), es[1..]);
    }
  }

  /**
   A `neutralize_pose` that saw the writer running: once its second section is over (its own write raising or
   not), every frame written afterwards is the safe frame as long as nobody sends since its first section,
   whatever flushes, starts, failures and other neutralizations were in flight.
   */
  lemma NeutralizeIsALinearizationPoint(s: Tracker, t: nat, between: seq<Event>, result: SinkResult)
    requires s.running && !s.closed && !Busy(s, t) && NoSends(between)
    requires
      var waited := Run(Step(s, NeutralizeTarget(t)), between);
      waited.io.Free? && In(waited, t, NeutralizeWaiting)
    ensures SafeFromNowOn(Step(Run(Step(s, NeutralizeTarget(t)), between), NeutralizeWrite(t, result)))
  {
    TargetStaysSafe(Step(s, NeutralizeTarget(t)), between);
    CleanIsSafe(Step(Run(Step(s, NeutralizeTarget(t)), between), NeutralizeWrite(t, result)));
  }

  /**
   A `neutralize_pose` that finds the writer closed or not running returns at once, without waiting for the
   I/O lock. Then the promise holds exactly when no flush in flight still carries another frame.
   */
  lemma EarlyReturnIsSafeIff(s: Tracker, t: nat)
    requires (s.closed || !s.running) && !Busy(s, t)
    ensures SafeFromNowOn(Step(s, NeutralizeTarget(t))) <==> !StaleInFlight(s)
    ensures !Busy(Step(s, NeutralizeTarget(t)), t)
  {
    var n := Step(s, NeutralizeTarget(t));
    if StaleInFlight(s) {
      var es := [FlushWrite(n.io.t, Delivered)];
      assert es[1..] == [];
      assert Run(n, es).written == n.written + [n.io.frame];
      assert n.io.frame in Run(n, es).written[|n.written|..];
      assert NoSends(es);
    } else {
      CleanIsSafe(n);
    }
  }

  /** A neutralization fails; a frame is sent and taken by a flush; only then is the failure recorded. */
  function Race(frame: Pose): seq<Event> {
    [StartBegin(0), StartWrite(0, Delivered), StartFinish(0), NeutralizeTarget(1),
     NeutralizeWrite(1, Raised(false)), Send(frame), FlushTake(2), RecordFailure(1)]
  }

  lemma RunTwo(s: Tracker, a: Event, b: Event, rest: seq<Event>)
    ensures Run(s, [a, b] + rest) == Run(Step(Step(s, a), b), rest)
  {
    assert ([a, b] + rest)[1..] == [b] + rest && ([b] + rest)[1..] == rest;
  }

  /**
   That early return can really meet a stale flush, so the promise does not hold in every run.
   */
  lemma StaleEarlyReturnIsReachable(safe: Pose, frame: Pose)
    requires frame != safe
    ensures
      var s := Run(New(safe), Race(frame));
      && !s.running && !s.closed && !Busy(s, 3)
      && !SafeFromNowOn(Step(s, NeutralizeTarget(3)))
  {
    var started := Step(Step(New(safe), StartBegin(0)), StartWrite(0, Delivered));
    var waiting := Step(Step(started, StartFinish(0)), NeutralizeTarget(1));
    var failing := Step(Step(waiting, NeutralizeWrite(1, Raised(false))), Send(frame));
    var raced := Step(Step(failing, FlushTake(2)), RecordFailure(1));
    assert Run(New(safe), Race(frame)) == raced by {
      RunTwo(failing, FlushTake(2), RecordFailure(1), Race(frame)[8..]);
      RunTwo(waiting, NeutralizeWrite(1, Raised(false)), Send(frame), Race(frame)[6..]);
      RunTwo(started, StartFinish(0), NeutralizeTarget(1), Race(frame)[4..]);
      RunTwo(New(safe), StartBegin(0), StartWrite(0, Delivered), Race(frame)[2..]);
    }
    EarlyReturnIsSafeIff(raced, 3);
  }
}
