/** What is asked of the tracker writer, what it reports, and what reaches the device, over every interleaving. */
module TrackerTargets {
  import opened Contracts
  import opened TrackerModel
  import opened TrackerRuns

  // ---- Requests ----

  /** The frame a step asks for: a send while the writer runs, or a neutralization of a writer that is not closed. */
  function Asked(s: Tracker, e: Event): seq<Pose> {
    match e
    case Send(frame) => if s.running && !s.closed then [frame] else []
    case NeutralizeTarget(t) => if s.closed || Busy(s, t) then [] else [s.safe]
    case _ => []
  }

  function Requests(s: Tracker, es: seq<Event>): seq<Pose>
    decreases |es|
  {
    if es == [] then [] else Asked(s, es[0]) + Requests(Step(s, es[0]), es[1..])
  }

  lemma StepTakesTheRequest(s: Tracker, e: Event)
    ensures Step(s, e).targets == s.targets + Asked(s, e)
    ensures Step(s, e).targetRevision == s.targetRevision + |Asked(s, e)|
    ensures Step(s, e).target == if Asked(s, e) == [] then s.target else Asked(s, e)[0]
    ensures Step(s, e).safe == s.safe
  {
  }

  /** The targets are exactly what was asked for, in order, and each accepted request raises the revision by one. */
  lemma {:induction false} TargetsAreTheRequests(s: Tracker, es: seq<Event>)
    requires Consistent(s)
    ensures Run(s, es).targets == s.targets + Requests(s, es)
    ensures Run(s, es).targetRevision == s.targetRevision + |Requests(s, es)|
    ensures Run(s, es).target == (s.targets + Requests(s, es))[|s.targets| + |Requests(s, es)| - 1]
    decreases |es|
  {
    if es != [] {
      var n := Step(s, es[0]);
      StepTakesTheRequest(s, es[0]);
      StepExtends(s, es[0]);
      TargetsAreTheRequests(n, es[1..]);
      assert s.targets + Asked(s, es[0]) + Requests(n, es[1..]) == s.targets + Requests(s, es);
    }
  }

  // ---- From the request to the device ----

  /** No further request. */
  predicate AsksNothing(es: seq<Event>) {
    forall e :: e in es ==> !e.Send? && !e.NeutralizeTarget?
  }

  lemma {:induction false} TargetStays(s: Tracker, es: seq<Event>)
    requires AsksNothing(es)
    ensures Run(s, es).target == s.target && Run(s, es).targetRevision == s.targetRevision
    decreases |es|
  {
    if es != [] {
      assert es[0] in es;
      StepTakesTheRequest(s, es[0]);
      TargetStays(Step(s, es[0]), es[1..]);
    }
  }

  /** While a flush holds the I/O lock nothing else is written, no close gets at the sink, and what it took stays. */
  lemma {:induction false} TakenStays(s: Tracker, t: nat, es: seq<Event>)
    requires s.io.Taken? && s.io.t == t && forall e :: e in es ==> !(e.FlushWrite? && e.t == t)
    ensures Run(s, es).io == s.io && Run(s, es).written == s.written
    ensures forall u :: In(Run(s, es), u, CloseRecording) ==> In(s, u, CloseRecording)
    decreases |es|
  {
    if es != [] {
      assert es[0] in es;
      TakenStays(Step(s, es[0]), t, es[1..]);
    }
  }

  ghost predicate CanFlush(s: Tracker, t: nat) {
    s.running && !s.closed && s.io.Free? && !Busy(s, t)
  }

  /**
   A running writer is sent a frame and nothing more is asked of it. Every flush from then on takes this frame; when
   its write reaches the device, the device has got this frame next, whatever happened in between; and once the flush
   is over, the writer reports the revision of this frame as applied.
   */
  lemma SentFrameReachesTheDevice(
      s: Tracker, frame: Pose, es: seq<Event>, t: nat, between: seq<Event>, result: SinkResult)
    requires s.running && !s.closed && AsksNothing(es) && CanFlush(Run(Step(s, Send(frame)), es), t)
    requires forall e :: e in between ==> !(e.FlushWrite? && e.t == t)
    ensures
      var before := Run(Step(s, Send(frame)), es);
      var wrote := Step(Run(Step(before, FlushTake(t)), between), FlushWrite(t, result));
      && (result == Delivered || result.reached ==> wrote.written == before.written + [frame])
      && (result == Delivered ==> Step(wrote, FlushFinish(t)).appliedRevision == s.targetRevision + 1)
      && (result.Raised? ==>
            Step(wrote, FlushFinish(t)).state == Failed && !Step(wrote, FlushFinish(t)).running)
  {
    StepTakesTheRequest(s, Send(frame));
    var before := Run(Step(s, Send(frame)), es);
    TargetStays(Step(s, Send(frame)), es);
    TakenStays(Step(before, FlushTake(t)), t, between);
  }

  /** A neutralization that waited for the I/O lock writes the safe frame itself, at once. */
  lemma NeutralizationReachesTheDevice(s: Tracker, t: nat, between: seq<Event>, result: SinkResult)
    requires s.running && !s.closed && !Busy(s, t)
    requires
      var waited := Run(Step(s, NeutralizeTarget(t)), between);
      waited.io.Free? && In(waited, t, NeutralizeWaiting)
    ensures
      var waited := Run(Step(s, NeutralizeTarget(t)), between);
      var done := Step(waited, NeutralizeWrite(t, result));
      && (result == Delivered || result.reached ==> done.written == waited.written + [s.safe])
      && (result.Raised? ==> !Step(done, RecordFailure(t)).running && Step(done, RecordFailure(t)).state == Failed)
  {
    SafeStays(Step(s, NeutralizeTarget(t)), between);
  }

  /** Nothing is reported as applied before the first flush is over. */
  lemma NothingAppliedUnflushed(safe: Pose, es: seq<Event>)
    requires forall e :: e in es ==> !e.FlushFinish?
    ensures Run(New(safe), es).appliedRevision == -1
  {
    AppliedStays(New(safe), es);
  }

  lemma {:induction false} AppliedStays(s: Tracker, es: seq<Event>)
    requires forall e :: e in es ==> !e.FlushFinish?
    ensures Run(s, es).appliedRevision == s.appliedRevision
    decreases |es|
  {
    if es != [] { AppliedStays(Step(s, es[0]), es[1..]); }
  }

  lemma {:induction false} SafeStays(s: Tracker, es: seq<Event>)
    ensures Run(s, es).safe == s.safe
    decreases |es|
  {
    if es != [] {
      StepTakesTheRequest(s, es[0]);
      SafeStays(Step(s, es[0]), es[1..]);
    }
  }

  // ---- The reported mode and state ----

  /** What a step makes of the mode: ACTION by a frame that is accepted, SAFE by a neutralization or a start. */
  function Sets(s: Tracker, e: Event): Option<Mode> {
    match e
    case Send(_) => if Asked(s, e) != [] then Some(ActionMode) else None
    case NeutralizeTarget(_) => if Asked(s, e) != [] then Some(SafeMode) else None
    case StartFinish(t) => if In(s, t, StartReady) then Some(SafeMode) else None
    case _ => None
  }

  /** The last of them in a run, if any. */
  function LastSet(s: Tracker, es: seq<Event>): Option<Mode>
    decreases |es|
  {
    if es == [] then None
    else
      var later := LastSet(Step(s, es[0]), es[1..]);
      if later.Some? then later else Sets(s, es[0])
  }

  /** The mode is ACTION exactly when a frame was accepted and neither a neutralization nor a start came after it. */
  lemma {:induction false} ModeIsTheLastSet(s: Tracker, es: seq<Event>)
    ensures Run(s, es).mode == match LastSet(s, es) case Some(mode) => mode case None => s.mode
    decreases |es|
  {
    if es != [] { ModeIsTheLastSet(Step(s, es[0]), es[1..]); }
  }

  ghost predicate StartsAreWritten(s: Tracker) {
    forall t :: In(s, t, StartReady) ==> s.written != []
  }

  /** The status is STREAMING exactly while the writer runs, and only after the safe frame was written first. */
  ghost predicate Truthful(s: Tracker) {
    && (s.running <==> s.state == Streaming) && (s.running ==> s.hasThread)
    && (s.hasThread || s.io.Taken? ==> s.written != []) && StartsAreWritten(s)
    && (s.written != [] ==> s.written[0] == s.safe)
  }

  lemma StartsStayWritten(s: Tracker, n: Tracker)
    requires StartsAreWritten(s) && s.written <= n.written
    requires forall t :: In(n, t, StartReady) ==> In(s, t, StartReady) || n.written != []
    ensures StartsAreWritten(n)
  {
    forall t | In(n, t, StartReady) ensures n.written != [] {
      if In(s, t, StartReady) { assert s.written != []; }
    }
  }

  lemma FlushKeepsTruthful(s: Tracker, t: nat, result: SinkResult)
    requires Truthful(s)
    ensures Truthful(TakeTarget(s, t)) && Truthful(WriteTaken(s, t, result)) && Truthful(FinishFlush(s, t))
  {
    StartsStayWritten(s, TakeTarget(s, t));
    StartsStayWritten(s, WriteTaken(s, t, result));
    StartsStayWritten(s, FinishFlush(s, t));
  }

  lemma NeutralizeKeepsTruthful(s: Tracker, t: nat, result: SinkResult)
    requires Truthful(s)
    ensures Truthful(BeginNeutralize(s, t)) && Truthful(WriteNeutral(s, t, result)) && Truthful(Record(s, t))
  {
    StartsStayWritten(s, BeginNeutralize(s, t));
    StartsStayWritten(s, WriteNeutral(s, t, result));
    StartsStayWritten(s, Record(s, t));
  }

  lemma StartKeepsTruthful(s: Tracker, t: nat, result: SinkResult)
    requires Truthful(s)
    ensures Truthful(BeginStart(s, t)) && Truthful(WriteInitial(s, t, result)) && Truthful(FinishStart(s, t))
  {
    StartsStayWritten(s, BeginStart(s, t));
    StartsStayWritten(s, WriteInitial(s, t, result));
    StartsStayWritten(s, FinishStart(s, t));
  }

  lemma CloseKeepsTruthful(s: Tracker, t: nat, errors: bool)
    requires Truthful(s)
    ensures Truthful(BeginClose(s, t)) && Truthful(CloseTheSink(s, t)) && Truthful(RecordClose(s, t, errors))
  {
    StartsStayWritten(s, BeginClose(s, t));
    StartsStayWritten(s, CloseTheSink(s, t));
    StartsStayWritten(s, RecordClose(s, t, errors));
  }

  lemma StepKeepsTruthful(s: Tracker, e: Event)
    requires Truthful(s)
    ensures Truthful(Step(s, e))
  {
    match e
    case Send(frame) => StartsStayWritten(s, SendTarget(s, frame));
    case FlushTake(t) => FlushKeepsTruthful(s, t, Delivered);
    case FlushWrite(t, result) => FlushKeepsTruthful(s, t, result);
    case FlushFinish(t) => FlushKeepsTruthful(s, t, Delivered);
    case NeutralizeTarget(t) => NeutralizeKeepsTruthful(s, t, Delivered);
    case NeutralizeWrite(t, result) => NeutralizeKeepsTruthful(s, t, result);
    case RecordFailure(t) => NeutralizeKeepsTruthful(s, t, Delivered);
    case StartBegin(t) => StartKeepsTruthful(s, t, Delivered);
    case StartWrite(t, result) => StartKeepsTruthful(s, t, result);
    case StartFinish(t) => StartKeepsTruthful(s, t, Delivered);
    case CloseBegin(t) => CloseKeepsTruthful(s, t, false);
    case CloseSink(t) => CloseKeepsTruthful(s, t, false);
    case CloseRecord(t, errors) => CloseKeepsTruthful(s, t, errors);
  }

  lemma {:induction false} RunKeepsTruthful(s: Tracker, es: seq<Event>)
    requires Truthful(s)
    ensures Truthful(Run(s, es))
    decreases |es|
  {
    if es != [] {
      StepKeepsTruthful(s, es[0]);
      RunKeepsTruthful(Step(s, es[0]), es[1..]);
    }
  }

  /**
   In every reachable state the status is STREAMING exactly while the writer runs, it runs only after its first frame
   was written, and that first frame is the safe one.
   */
  lemma FirstFrameIsSafe(safe: Pose, es: seq<Event>)
    ensures
      var s := Run(New(safe), es);
      && (s.running <==> s.state == Streaming) && (s.running ==> s.written != [])
      && (s.written != [] ==> s.written[0] == safe)
  {
    RunKeepsTruthful(New(safe), es);
    SafeStays(New(safe), es);
  }

  // ---- Starting and closing ----

  /** One undisturbed start, or one undisturbed close. */
  function Started(s: Tracker, t: nat): Tracker {
    Step(Step(Step(s, StartBegin(t)), StartWrite(t, Delivered)), StartFinish(t))
  }

  function Closed(s: Tracker, t: nat, errors: bool): Tracker {
    Step(Step(Step(s, CloseBegin(t)), CloseSink(t)), CloseRecord(t, errors))
  }

  /** A writer that was never started runs after a start that no write refuses, having written the safe frame. */
  lemma StartRuns(s: Tracker, t: nat)
    requires !s.hasThread && !s.closed && !Busy(s, t) && s.io.Free?
    ensures
      var n := Started(s, t);
      n.running && n.state == Streaming && n.mode == SafeMode && n.written == s.written + [s.safe]
  {
  }

  /** A raising first write leaves the writer failed and not running. */
  lemma RefusedStartFails(s: Tracker, t: nat, reached: bool)
    requires !s.hasThread && !s.closed && !Busy(s, t) && s.io.Free?
    ensures
      var n := Step(Step(Step(s, StartBegin(t)), StartWrite(t, Raised(reached))), RecordFailure(t));
      !n.running && n.state == Failed && !n.hasThread && Step(n, StartFinish(t)) == n
  {
  }

  /** A closed writer does not run, and takes no frame, no flush and no start any more. */
  lemma ClosedTakesNothing(s: Tracker, t: nat, errors: bool, frame: Pose)
    requires !s.closed && !Busy(s, t) && s.io.Free?
    ensures
      var n := Closed(s, t, errors);
      && n.closed && !n.running && n.state == (if errors then Failed else Stopped)
      && Step(n, Send(frame)) == n
      && (forall u :: Step(n, FlushTake(u)) == n && Step(n, StartBegin(u)) == n && Step(n, NeutralizeTarget(u)) == n)
  {
  }
}
