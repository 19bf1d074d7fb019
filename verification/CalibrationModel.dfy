/**
 Leased calibration over the device gateway. Each operation is one section under the session lock; payload
 shape checks come before it and change nothing. What the tracker reports, which sink calls raise, and every
 clock reading are inputs.
 */
module CalibrationModel {
  import opened Contracts
  import opened GatewayModel

  const TTL := 5.0

  const ENVELOPE_TTL_MS := 6000

  datatype RecordState = Active | Confirmed | Canceled | Expired | Failed

  datatype Record = Record(
    token: string,
    requestId: string,
    state: RecordState,
    revision: int,
    pose: int,
    restored: bool,
    applied: Option<nat>)

  /** The calibration session together with the gateway it owns; `written` remembers the frames the gateway took. */
  datatype Desk = Desk(
    gateway: Gateway, record: Option<Record>, deadline: real, sequence: nat, closed: bool, written: seq<Envelope>)

  /**
   Two clock readings taken by the gateway, whether its sink took the frame, what the flush reported, and the clock
   after it.
   */
  datatype ApplyIo = ApplyIo(received: real, now: real, sinkOk: bool, flushed: Option<nat>, after: real)

  /** Whether neutralizing raised, what the flush reported, and the tracker snapshot taken then. */
  datatype RestoreIo = RestoreIo(sinkOk: bool, flushed: Option<nat>, safe: bool, applied: int)

  datatype Refusal =
    | ServiceClosed
    | RequestEnded
    | AnotherActive
    | TrackerNotSafe
    | OutputBusy
    | ApplyFailed
    | UnknownToken
    | NotActive
    | RevisionChanged

  datatype Reply = Granted(record: Record) | Refused(why: Refusal)

  const INITIAL_DESK := Desk(INITIAL, None, 0.0, 0, false, [])

  predicate IsActive(d: Desk) {
    d.record.Some? && d.record.value.state.Active?
  }

  /** The frame an active calibration drives next. */
  function Frame(d: Desk): Envelope
    requires d.record.Some?
  {
    var r := d.record.value;
    Envelope(r.token, r.token, FullBodyPose, 1, d.sequence, ENVELOPE_TTL_MS, r.pose)
  }

  function Pose(d: Desk, io: ApplyIo): Outcome
    requires d.record.Some?
  {
    ApplyEnvelope(d.gateway, Frame(d), io.received, io.now, io.sinkOk)
  }

  /** Drive the pose once more and renew the deadline. */
  function Apply(d: Desk, io: ApplyIo): (Desk, bool)
    requires d.record.Some?
  {
    var outcome := Pose(d, io);
    if outcome.decision != Accepted then (d.(gateway := outcome.gateway), false)
    else
      var sent := d.(gateway := outcome.gateway, sequence := d.sequence + 1, written := d.written + [Frame(d)]);
      if io.flushed.None? then (sent, false)
      else (sent.(record := Some(d.record.value.(applied := io.flushed)), deadline := io.after + TTL), true)
  }

  /** Exclusive ownership is given up only after SAFE output was observed. */
  function Restore(d: Desk, state: RecordState, io: RestoreIo): Desk
    requires d.record.Some?
  {
    var r := d.record.value;
    var neutralized := Neutralize(d.gateway, r.token, FullBodyPose, 1, io.sinkOk);
    var kept := d.(gateway := neutralized.gateway, record := Some(r.(state := Failed, restored := false)));
    if neutralized.decision != Accepted || io.flushed.None? || !io.safe || io.applied != io.flushed.value then kept
    else
      var released := ReleaseExclusive(neutralized.gateway, r.token);
      if released.result != SessionOk then kept
      else d.(gateway := released.gateway, record := Some(r.(state := state, restored := true)))
  }

  function Poll(d: Desk, now: real, io: RestoreIo): Desk {
    if IsActive(d) && d.deadline <= now then Restore(d, Expired, io) else d
  }

  function ApplyOrRestore(d: Desk, io: ApplyIo, restore: RestoreIo): (Desk, Reply)
    requires d.record.Some?
    ensures ApplyOrRestore(d, io, restore).0.record.Some?
  {
    var (applied, ok) := Apply(d, io);
    if ok then (applied, Granted(applied.record.value))
    else (Restore(applied, Failed, restore), Refused(ApplyFailed))
  }

  /** What a start needs besides the request: the polled clock, a fresh token, and the tracker's readiness. */
  datatype StartIo = StartIo(
    token: string, now: real, trackerSafe: bool, polled: RestoreIo, apply: ApplyIo, restore: RestoreIo)

  function Start(d0: Desk, requestId: string, pose: int, io: StartIo): (Desk, Reply) {
    var d := Poll(d0, io.now, io.polled);
    if d.closed then (d, Refused(ServiceClosed))
    else if d.record.Some? && d.record.value.requestId == requestId then
      if d.record.value.state.Active? then (d, Granted(d.record.value)) else (d, Refused(RequestEnded))
    else if IsActive(d) then (d, Refused(AnotherActive))
    else if !io.trackerSafe then (d, Refused(TrackerNotSafe))
    else
      var claimed := ClaimExclusive(d.gateway, io.token);
      if claimed.result != SessionOk then (d, Refused(OutputBusy))
      else
        var authorized := Authorize(claimed.gateway, io.token, Lease(FullBodyPose, 1, Some(io.token)));
        var record := Record(io.token, requestId, Active, 0, pose, false, None);
        ApplyOrRestore(d.(gateway := authorized.gateway, record := Some(record), sequence := 0), io.apply, io.restore)
  }

  function CheckActive(d: Desk, token: string): Option<Refusal> {
    if d.record.None? || d.record.value.token != token then Some(UnknownToken)
    else if !d.record.value.state.Active? then Some(NotActive)
    else None
  }

  function Reposed(d: Desk, pose: int): Desk
    requires d.record.Some?
  {
    d.(record := Some(d.record.value.(pose := pose, revision := d.record.value.revision + 1)))
  }

  datatype UpdateIo = UpdateIo(now: real, polled: RestoreIo, apply: ApplyIo, restore: RestoreIo)

  function PoseUpdate(d0: Desk, token: string, revision: int, pose: int, io: UpdateIo): (Desk, Reply) {
    var d := Poll(d0, io.now, io.polled);
    if CheckActive(d, token).Some? then (d, Refused(CheckActive(d, token).value))
    else if revision != d.record.value.revision then (d, Refused(RevisionChanged))
    else ApplyOrRestore(Reposed(d, pose), io.apply, io.restore)
  }

  function Heartbeat(d0: Desk, token: string, io: UpdateIo): (Desk, Reply) {
    var d := Poll(d0, io.now, io.polled);
    if CheckActive(d, token).Some? then (d, Refused(CheckActive(d, token).value))
    else ApplyOrRestore(d, io.apply, io.restore)
  }

  function Finish(d0: Desk, token: string, revision: int, verified: bool, io: UpdateIo): (Desk, Reply) {
    var d := Poll(d0, io.now, io.polled);
    if d.record.None? || d.record.value.token != token then (d, Refused(UnknownToken))
    else if !d.record.value.state.Active? then (d, Granted(d.record.value))
    else if revision != d.record.value.revision then (d, Refused(RevisionChanged))
    else
      var restored := Restore(d, if verified then Confirmed else Canceled, io.restore);
      (restored, Granted(restored.record.value))
  }

  function Close(d: Desk, io: RestoreIo): Desk {
    var closing := d.(closed := true);
    if IsActive(closing) then Restore(closing, Canceled, io) else closing
  }
}
