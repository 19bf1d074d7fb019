/**
 The device-side tracker writer at lock granularity. Every event is one section held under the condition
 lock or the I/O lock, by a thread `t`; a thread between two sections is remembered in `phases`. Whether a
 write raises, and whether a raising write still reached the device, are inputs. An event whose lock is taken
 or whose thread is elsewhere changes nothing.
 */
module TrackerModel {
  /** An opaque tracker frame. */
  type Pose = int

  datatype Mode = SafeMode | ActionMode

  datatype State = Stopped | Starting | Streaming | Failed

  datatype SinkResult = Delivered | Raised(reached: bool)

  /** The I/O lock, with what the flush holding it is about to do. */
  datatype IoLock =
    | Free
    | Taken(t: nat, frame: Pose, revision: nat)
    | Wrote(t: nat, revision: nat)
    | Broke(t: nat)

  datatype Phase =
    | NeutralizeWaiting
    | RecordPending
    | StartWriting
    | StartReady
    | CloseWaiting
    | CloseRecording

  datatype Tracker = Tracker(
    safe: Pose,
    target: Pose,
    mode: Mode,
    running: bool,
    state: State,
    closed: bool,
    hasThread: bool,
    targetRevision: nat,
    appliedRevision: int,
    io: IoLock,
    phases: map<nat, Phase>,
    targets: seq<Pose>,
    written: seq<Pose>)

  datatype Event =
    | Send(frame: Pose)
    | NeutralizeTarget(t: nat)
    | NeutralizeWrite(t: nat, result: SinkResult)
    | FlushTake(t: nat)
    | FlushWrite(t: nat, result: SinkResult)
    | FlushFinish(t: nat)
    | RecordFailure(t: nat)
    | StartBegin(t: nat)
    | StartWrite(t: nat, result: SinkResult)
    | StartFinish(t: nat)
    | CloseBegin(t: nat)
    | CloseSink(t: nat)
    | CloseRecord(t: nat, errors: bool)

  function New(safe: Pose): Tracker {
    Tracker(safe, safe, SafeMode, false, Stopped, false, false, 0, -1, Free, map[], [safe], [])
  }

  predicate In(s: Tracker, t: nat, p: Phase) {
    t in s.phases && s.phases[t] == p
  }

  /** A thread runs one operation at a time. */
  predicate Busy(s: Tracker, t: nat) {
    t in s.phases || (!s.io.Free? && s.io.t == t)
  }

  function Enter(s: Tracker, t: nat, p: Phase): Tracker {
    s.(phases := s.phases[t := p])
  }

  function Leave(s: Tracker, t: nat): Tracker {
    s.(phases := s.phases - {t})
  }

  function Fail(s: Tracker): Tracker {
    s.(running := false, state := Failed)
  }

  function Retarget(s: Tracker, frame: Pose, mode: Mode): Tracker {
    s.(target := frame, mode := mode, targetRevision := s.targetRevision + 1, targets := s.targets + [frame])
  }

  function Write(s: Tracker, frame: Pose, result: SinkResult): Tracker {
    if result.Delivered? || result.reached then s.(written := s.written + [frame]) else s
  }

  function SendTarget(s: Tracker, frame: Pose): Tracker {
    if s.closed || !s.running then s else Retarget(s, frame, ActionMode)
  }

  /** The first section of `neutralize_pose`; it returns at once when nothing is running. */
  function BeginNeutralize(s: Tracker, t: nat): Tracker {
    if Busy(s, t) || s.closed then s
    else
      var r := Retarget(s, s.safe, SafeMode);
      if s.running then Enter(r, t, NeutralizeWaiting) else r
  }

  /** Its second section: the safe frame is written directly, ahead of any later flush. */
  function WriteNeutral(s: Tracker, t: nat, result: SinkResult): Tracker {
    if !s.io.Free? || !In(s, t, NeutralizeWaiting) then s
    else
      var w := Write(s, s.safe, result);
      if result.Delivered? then Leave(w, t) else Enter(w, t, RecordPending)
  }

  /** A flush reads its target under the I/O lock, and keeps that lock until it has accounted for the write. */
  function TakeTarget(s: Tracker, t: nat): Tracker {
    if !s.io.Free? || Busy(s, t) || !s.running || s.closed then s
    else s.(io := Taken(t, s.target, s.targetRevision))
  }

  function WriteTaken(s: Tracker, t: nat, result: SinkResult): Tracker {
    if s.io.Taken? && s.io.t == t then
      Write(s, s.io.frame, result).(io := if result.Delivered? then Wrote(t, s.io.revision) else Broke(t))
    else s
  }

  function FinishFlush(s: Tracker, t: nat): Tracker {
    if s.io.Wrote? && s.io.t == t then s.(io := Free, appliedRevision := s.io.revision)
    else if s.io == Broke(t) then Fail(Enter(s, t, RecordPending)).(io := Free)
    else s
  }

  /** A failure is recorded after the I/O lock was given up. */
  function Record(s: Tracker, t: nat): Tracker {
    if In(s, t, RecordPending) then Leave(Fail(s), t) else s
  }

  function BeginStart(s: Tracker, t: nat): Tracker {
    if Busy(s, t) || s.hasThread || s.closed then s else Enter(s.(state := Starting), t, StartWriting)
  }

  function WriteInitial(s: Tracker, t: nat, result: SinkResult): Tracker {
    if !s.io.Free? || !In(s, t, StartWriting) then s
    else Enter(Write(s, s.safe, result), t, if result.Delivered? then StartReady else RecordPending)
  }

  function FinishStart(s: Tracker, t: nat): Tracker {
    if In(s, t, StartReady) then
      Leave(s, t).(running := true, state := Streaming, mode := SafeMode, hasThread := true)
    else s
  }

  function BeginClose(s: Tracker, t: nat): Tracker {
    if Busy(s, t) || s.closed then s else Enter(s.(closed := true), t, CloseWaiting)
  }

  function CloseTheSink(s: Tracker, t: nat): Tracker {
    if !s.io.Free? || !In(s, t, CloseWaiting) then s else Enter(s, t, CloseRecording)
  }

  function RecordClose(s: Tracker, t: nat, errors: bool): Tracker {
    if In(s, t, CloseRecording) then
      Leave(s, t).(hasThread := false, running := false, state := if errors then Failed else Stopped)
    else s
  }

  function Step(s: Tracker, e: Event): Tracker {
    match e
    case Send(frame) => SendTarget(s, frame)
    case NeutralizeTarget(t) => BeginNeutralize(s, t)
    case NeutralizeWrite(t, result) => WriteNeutral(s, t, result)
    case FlushTake(t) => TakeTarget(s, t)
    case FlushWrite(t, result) => WriteTaken(s, t, result)
    case FlushFinish(t) => FinishFlush(s, t)
    case RecordFailure(t) => Record(s, t)
    case StartBegin(t) => BeginStart(s, t)
    case StartWrite(t, result) => WriteInitial(s, t, result)
    case StartFinish(t) => FinishStart(s, t)
    case CloseBegin(t) => BeginClose(s, t)
    case CloseSink(t) => CloseTheSink(s, t)
    case CloseRecord(t, errors) => RecordClose(s, t, errors)
  }

  function Run(s: Tracker, es: seq<Event>): Tracker
    decreases |es|
  {
    if es == [] then s else Run(Step(s, es[0]), es[1..])
  }
}
