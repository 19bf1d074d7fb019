/** How a calibration starts, what keeps it alive, what it drives, and how it ends. */
module CalibrationCourse {
  import opened Contracts
  import opened GatewayModel
  import opened CalibrationModel
  import opened CalibrationRuns

  // ---- Staying alive ----

  /** Neither addressed to this calibration nor late. */
  predicate Harmless(e: Event, token: string, due: real) {
    match e
    case StartEvent(_, _, io) => io.now < due
    case UpdateEvent(other, _, _, update) => other != token && update.now < due
    case HeartbeatEvent(other, update) => other != token && update.now < due
    case FinishEvent(other, _, _, update) => other != token && update.now < due
    case PollEvent(now, _) => now < due
    case CloseEvent(_) => false
    case _ => true
  }

  lemma HarmlessStep(s: System, tokens: set<string>, e: Event)
    requires Sound(s, tokens) && Admissible(e, tokens) && IsActive(s.desk)
    requires Harmless(e, s.desk.record.value.token, s.desk.deadline)
    ensures Step(s, e) == s
  {
  }

  /**
   A calibration whose deadline has not come, and to which nothing is addressed, is left exactly as it is by every other
   operation, by every poll and by everything the bridge tries.
   */
  lemma {:induction false} ActiveUntilItsDeadline(s: System, tokens: set<string>, es: seq<Event>)
    requires Sound(s, tokens) && AllAdmissible(es, tokens) && IsActive(s.desk)
    requires forall e :: e in es ==> Harmless(e, s.desk.record.value.token, s.desk.deadline)
    ensures Run(s, es) == s
    decreases |es|
  {
    if es != [] {
      assert es[0] in es;
      HarmlessStep(s, tokens, es[0]);
      ActiveUntilItsDeadline(s, tokens, es[1..]);
    }
  }

  // ---- Starting and driving ----

  /** The gateway takes the frame: the clock is sane and prompt, and the sink works; and the tracker flushes it. */
  predicate Drives(io: ApplyIo) {
    io.received <= io.now <= io.received + 6.0 && io.sinkOk && io.flushed.Some?
  }

  predicate Idle(s: System) {
    && s.bridge.None? && s.desk.gateway.session.None? && !s.desk.closed
    && (s.desk.record.Some? ==> s.desk.record.value.restored)
  }

  /**
   On an idle desk a new request with a safe tracker and a working output is granted: it owns the output, its pose is
   driven as the first frame, and it lives for five seconds after that. Asking again with the same request id finds
   the same calibration.
   */
  lemma StartIsGranted(s: System, tokens: set<string>, requestId: string, pose: int, io: StartIo, again: StartIo)
    requires Sound(s, tokens) && Idle(s) && io.token in tokens && io.token != "" && io.trackerSafe && Drives(io.apply)
    requires s.desk.record.Some? ==> s.desk.record.value.requestId != requestId
    requires again.now < io.apply.after + 5.0
    ensures
      var (n, reply) := Start(s.desk, requestId, pose, io);
      && reply == Granted(Record(io.token, requestId, Active, 0, pose, false, io.apply.flushed))
      && n.record == Some(reply.record) && n.deadline == io.apply.after + 5.0
      && Owned(n.gateway, io.token)
      && n.written == s.desk.written + [Envelope(io.token, io.token, FullBodyPose, 1, 0, 6000, pose)]
      && Start(n, requestId, pose, again) == (n, reply)
  {
    assert s.desk.gateway.exclusive.None?;
  }

  /** What an active calibration leaves behind when its pose was driven once more. */
  ghost predicate Driven(d: Desk, n: Desk, record: Record, io: ApplyIo) {
    && n.record == Some(record.(applied := io.flushed)) && n.deadline == io.after + 5.0 && n.sequence == d.sequence + 1
    && Owned(n.gateway, record.token) && Driving(n, record.token) && n.closed == d.closed
    && n.written == d.written
         + [Envelope(record.token, record.token, FullBodyPose, 1, d.sequence, 6000, record.pose)]
  }

  /** In time and with the revision it was shown, an update is granted: its pose is driven under the next revision. */
  lemma UpdateDrivesThePose(d: Desk, tokens: set<string>, revision: int, pose: int, io: UpdateIo)
    requires OwnershipAgrees(d, tokens) && IsActive(d) && io.now < d.deadline && Drives(io.apply)
    requires revision == d.record.value.revision
    ensures
      var (n, reply) := PoseUpdate(d, d.record.value.token, revision, pose, io);
      && Driven(d, n, d.record.value.(pose := pose, revision := revision + 1), io.apply)
      && reply == Granted(n.record.value)
  {
  }

  /** A heartbeat in time drives the same pose once more under the same revision. */
  lemma HeartbeatDrivesAgain(d: Desk, tokens: set<string>, io: UpdateIo)
    requires OwnershipAgrees(d, tokens) && IsActive(d) && io.now < d.deadline && Drives(io.apply)
    ensures
      var (n, reply) := Heartbeat(d, d.record.value.token, io);
      Driven(d, n, d.record.value, io.apply) && reply == Granted(n.record.value)
  {
  }

  /** A frame that cannot be driven, or whose flush fails, ends the calibration as failed. */
  lemma UndrivenFrameEnds(d: Desk, tokens: set<string>, io: UpdateIo)
    requires OwnershipAgrees(d, tokens) && IsActive(d) && io.now < d.deadline && !Drives(io.apply)
    ensures
      var (n, reply) := Heartbeat(d, d.record.value.token, io);
      && reply == Refused(ApplyFailed) && n.record.Some? && n.record.value.state == Failed
      && (n.record.value.restored <==> SafeObserved(io.restore)) && n.deadline == d.deadline
  {
    ApplyKeepsOwnership(d, tokens, io.apply);
    RestoredIffSafeObserved(Apply(d, io.apply).0, tokens, Failed, io.restore);
  }

  // ---- Refusals ----

  /** What is not addressed to the running calibration, or is out of date, is refused and changes nothing. */
  lemma MisdirectedIsRefused(d: Desk, token: string, revision: int, pose: int, verified: bool, io: UpdateIo)
    requires IsActive(d) && io.now < d.deadline
    ensures token != d.record.value.token ==>
              && PoseUpdate(d, token, revision, pose, io) == (d, Refused(UnknownToken))
              && Heartbeat(d, token, io) == (d, Refused(UnknownToken))
              && CalibrationModel.Finish(d, token, revision, verified, io) == (d, Refused(UnknownToken))
    ensures token == d.record.value.token && revision != d.record.value.revision ==>
              && PoseUpdate(d, token, revision, pose, io) == (d, Refused(RevisionChanged))
              && CalibrationModel.Finish(d, token, revision, verified, io) == (d, Refused(RevisionChanged))
  {
  }

  /** A calibration that has ended takes no update and no heartbeat; finishing it again reports it again. */
  lemma EndedStaysEnded(d: Desk, revision: int, pose: int, verified: bool, io: UpdateIo)
    requires d.record.Some? && !IsActive(d)
    ensures
      var token := d.record.value.token;
      && PoseUpdate(d, token, revision, pose, io) == (d, Refused(NotActive))
      && Heartbeat(d, token, io) == (d, Refused(NotActive))
      && CalibrationModel.Finish(d, token, revision, verified, io) == (d, Granted(d.record.value))
  {
  }

  /** Why a start is refused, the first reason counting; a refused start changes nothing. */
  lemma StartIsRefused(s: System, tokens: set<string>, requestId: string, pose: int, io: StartIo)
    requires Sound(s, tokens) && (IsActive(s.desk) ==> io.now < s.desk.deadline)
    ensures
      var d := s.desk;
      var known := d.record.Some? && d.record.value.requestId == requestId;
      && (d.closed ==> Start(d, requestId, pose, io) == (d, Refused(ServiceClosed)))
      && (!d.closed && known && !IsActive(d) ==> Start(d, requestId, pose, io) == (d, Refused(RequestEnded)))
      && (!d.closed && !known && IsActive(d) ==> Start(d, requestId, pose, io) == (d, Refused(AnotherActive)))
      && (!d.closed && !known && !IsActive(d) && !io.trackerSafe ==>
            Start(d, requestId, pose, io) == (d, Refused(TrackerNotSafe)))
      && (!d.closed && !known && !IsActive(d) && io.trackerSafe && d.gateway.session.Some? ==>
            Start(d, requestId, pose, io) == (d, Refused(OutputBusy)))
  {
  }

  // ---- Ending ----

  /** A verified finish confirms, any other cancels; in both cases only once SAFE output was observed. */
  lemma FinishReportsItsEnd(d: Desk, tokens: set<string>, verified: bool, io: UpdateIo)
    requires OwnershipAgrees(d, tokens) && IsActive(d) && io.now < d.deadline
    ensures
      var r := d.record.value;
      var (n, reply) := CalibrationModel.Finish(d, r.token, r.revision, verified, io);
      && reply == Granted(n.record.value)
      && n.record == Some(r.(
           state := if !SafeObserved(io.restore) then Failed else if verified then Confirmed else Canceled,
           restored := SafeObserved(io.restore)))
      && (SafeObserved(io.restore) ==> n.gateway.session.None? && n.gateway.exclusive.None?)
  {
    RestoredIffSafeObserved(d, tokens, if verified then Confirmed else Canceled, io.restore);
  }

  /** A poll past the deadline ends the calibration as expired, closing the service as canceled. */
  lemma OtherEndsReportThemselves(d: Desk, tokens: set<string>, now: real, io: RestoreIo)
    requires OwnershipAgrees(d, tokens) && IsActive(d)
    ensures d.deadline <= now ==>
              Poll(d, now, io).record == Some(d.record.value.(
                state := if SafeObserved(io) then Expired else Failed, restored := SafeObserved(io)))
    ensures Close(d, io).closed && Close(d, io).record == Some(d.record.value.(
              state := if SafeObserved(io) then Canceled else Failed, restored := SafeObserved(io)))
  {
    RestoredIffSafeObserved(d, tokens, Expired, io);
    RestoredIffSafeObserved(d.(closed := true), tokens, Canceled, io);
  }

  /** Confirmed now, but not before. */
  predicate TurnsConfirmed(d: Desk, n: Desk) {
    n.record.Some? && n.record.value.state == Confirmed && n.record != d.record
  }

  lemma PollDoesNotConfirm(d: Desk, now: real, io: RestoreIo)
    ensures !TurnsConfirmed(d, Poll(d, now, io))
  {
  }

  lemma DrivingDoesNotConfirm(d: Desk, before: Desk, io: ApplyIo, restore: RestoreIo)
    requires IsActive(d)
    ensures !TurnsConfirmed(before, ApplyOrRestore(d, io, restore).0)
  {
  }

  lemma StartDoesNotConfirm(d: Desk, requestId: string, pose: int, io: StartIo)
    ensures !TurnsConfirmed(d, Start(d, requestId, pose, io).0)
  {
    PollDoesNotConfirm(d, io.now, io.polled);
    var polled := Poll(d, io.now, io.polled);
    var authorized := Authorize(
      ClaimExclusive(polled.gateway, io.token).gateway, io.token, Lease(FullBodyPose, 1, Some(io.token))).gateway;
    var record := Record(io.token, requestId, Active, 0, pose, false, None);
    var started := polled.(gateway := authorized, record := Some(record), sequence := 0);
    DrivingDoesNotConfirm(started, d, io.apply, io.restore);
  }

  lemma UpdateDoesNotConfirm(d: Desk, token: string, revision: int, pose: int, io: UpdateIo)
    ensures !TurnsConfirmed(d, PoseUpdate(d, token, revision, pose, io).0)
    ensures !TurnsConfirmed(d, Heartbeat(d, token, io).0)
  {
    PollDoesNotConfirm(d, io.now, io.polled);
    var polled := Poll(d, io.now, io.polled);
    if IsActive(polled) {
      DrivingDoesNotConfirm(Reposed(polled, pose), d, io.apply, io.restore);
      DrivingDoesNotConfirm(polled, d, io.apply, io.restore);
    }
  }

  ghost predicate VerifiedFinish(e: Event, token: string) {
    e.FinishEvent? && e.verified && e.token == token
  }

  /** A record turns confirmed by a verified finish of that very calibration, and in no other way. */
  lemma OnlyAVerifiedFinishConfirms(s: System, tokens: set<string>, e: Event)
    requires Sound(s, tokens) && Admissible(e, tokens)
    ensures TurnsConfirmed(s.desk, Step(s, e).desk) ==> VerifiedFinish(e, Step(s, e).desk.record.value.token)
  {
    match e
    case StartEvent(requestId, pose, io) => StartDoesNotConfirm(s.desk, requestId, pose, io);
    case UpdateEvent(token, revision, pose, io) => UpdateDoesNotConfirm(s.desk, token, revision, pose, io);
    case HeartbeatEvent(token, io) => UpdateDoesNotConfirm(s.desk, token, 0, 0, io);
    case FinishEvent(token, revision, verified, io) => PollDoesNotConfirm(s.desk, io.now, io.polled);
    case PollEvent(now, io) => PollDoesNotConfirm(s.desk, now, io);
    case CloseEvent(io) =>
    case _ => BridgeStepKeepsSound(s, tokens, e);
  }

  /** In every run a calibration that is confirmed at its end was finished by somebody who had verified it. */
  lemma {:induction false} ConfirmedWasVerified(s: System, tokens: set<string>, es: seq<Event>)
    requires Sound(s, tokens) && AllAdmissible(es, tokens) && TurnsConfirmed(s.desk, Run(s, es).desk)
    ensures exists i :: 0 <= i < |es| && VerifiedFinish(es[i], Run(s, es).desk.record.value.token)
    decreases |es|
  {
    assert es[0] in es;
    var n := Step(s, es[0]);
    StepKeepsSound(s, tokens, es[0]);
    OnlyAVerifiedFinishConfirms(s, tokens, es[0]);
    if TurnsConfirmed(n.desk, Run(n, es[1..]).desk) {
      ConfirmedWasVerified(n, tokens, es[1..]);
      var i :| 0 <= i < |es[1..]| && VerifiedFinish(es[1..][i], Run(s, es).desk.record.value.token);
      assert VerifiedFinish(es[i + 1], Run(s, es).desk.record.value.token);
    } else {
      assert VerifiedFinish(es[0], Run(s, es).desk.record.value.token);
    }
  }
}
