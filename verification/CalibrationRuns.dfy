/** Calibration beside the one bridge connection that shares its gateway. */
module CalibrationRuns {
  import opened Contracts
  import opened GatewayModel
  import opened CalibrationModel

  /** `bridge` is the session the connection loop opened and has not closed yet. */
  datatype System = System(desk: Desk, bridge: Option<string>)

  datatype Event =
    | StartEvent(requestId: string, pose: int, io: StartIo)
    | UpdateEvent(token: string, revision: int, pose: int, update: UpdateIo)
    | HeartbeatEvent(token: string, update: UpdateIo)
    | FinishEvent(token: string, revision: int, verified: bool, update: UpdateIo)
    | PollEvent(now: real, restore: RestoreIo)
    | CloseEvent(restore: RestoreIo)
    | BridgeOpens(id: string)
    | BridgeAuthorizes(lease: Lease)
    | BridgeNeutralizes(resource: Resource, leaseToken: int, sinkOk: bool)
    | BridgeSends(envelope: Envelope, received: real, now: real, sinkOk: bool)
    | BridgePolls(now: real)
    | BridgeCloses

  /** Calibration tokens are nonempty and are never a session id of the bridge. */
  predicate Admissible(e: Event, tokens: set<string>) {
    match e
    case StartEvent(_, _, io) => io.token in tokens && io.token != ""
    case BridgeOpens(id) => id !in tokens
    case _ => true
  }

  /** The connection loop serves one session at a time; the gateway may refuse to open it. */
  function BridgeStep(s: System, e: Event): System {
    var g := s.desk.gateway;
    if e.BridgeOpens? then
      if s.bridge.Some? || OpenSession(g, e.id).result != SessionOk then s
      else System(s.desk.(gateway := OpenSession(g, e.id).gateway), Some(e.id))
    else if s.bridge.None? then s
    else
      var id := s.bridge.value;
      match e
      case BridgeAuthorizes(lease) => s.(desk := s.desk.(gateway := Authorize(g, id, lease).gateway))
      case BridgeNeutralizes(r, token, ok) => s.(desk := s.desk.(gateway := Neutralize(g, id, r, token, ok).gateway))
      case BridgeSends(env, received, now, ok) =>
        s.(desk := s.desk.(gateway := ApplyEnvelope(g, env.(sessionId := id), received, now, ok).gateway))
      case BridgePolls(now) => s.(desk := s.desk.(gateway := PollExpired(g, now)))
      case BridgeCloses => System(s.desk.(gateway := CloseSession(g, id).gateway), None)
      case _ => s
  }

  function Step(s: System, e: Event): System {
    match e
    case StartEvent(requestId, pose, io) => s.(desk := Start(s.desk, requestId, pose, io).0)
    case UpdateEvent(token, revision, pose, io) => s.(desk := PoseUpdate(s.desk, token, revision, pose, io).0)
    case HeartbeatEvent(token, io) => s.(desk := Heartbeat(s.desk, token, io).0)
    case FinishEvent(token, revision, verified, io) => s.(desk := Finish(s.desk, token, revision, verified, io).0)
    case PollEvent(now, io) => s.(desk := Poll(s.desk, now, io))
    case CloseEvent(io) => s.(desk := Close(s.desk, io))
    case _ => BridgeStep(s, e)
  }

  function Run(s: System, es: seq<Event>): System
    decreases |es|
  {
    if es == [] then s else Run(Step(s, es[0]), es[1..])
  }

  const NEW_SYSTEM := System(INITIAL_DESK, None)

  // ---- Exclusive ownership ----

  /** The gateway belongs to calibration: nobody else's session, nothing on the voice output. */
  ghost predicate Owned(g: Gateway, token: string) {
    && g.session == Some(token) && g.exclusive == Some(token) && token != ""
    && g.resources[VoiceOutput].actionId.None?
    && g.resources[FullBodyPose].leaseToken == 1
  }

  /** While a calibration is active it is the authorized owner, and its next sequence number is the next one. */
  ghost predicate Driving(d: Desk, token: string) {
    && d.gateway.resources[FullBodyPose].actionId == Some(token)
    && d.gateway.resources[FullBodyPose].lastSequence == d.sequence - 1
  }

  ghost predicate OwnershipAgrees(d: Desk, tokens: set<string>) {
    match d.record
    case None => d.gateway.exclusive.None?
    case Some(r) =>
      if r.restored then !r.state.Active? && d.gateway.exclusive.None?
      else
        && r.token in tokens && Owned(d.gateway, r.token)
        && (r.state.Active? ==> Driving(d, r.token)) && (!r.state.Active? ==> r.state.Failed?)
  }

  /** A bridge session and a calibration never own the gateway together. */
  ghost predicate BridgeAgrees(s: System, tokens: set<string>) {
    s.bridge.Some? ==>
      && s.desk.gateway.session == s.bridge && s.desk.gateway.exclusive.None?
      && s.bridge.value !in tokens && s.bridge.value != ""
  }

  ghost predicate Sound(s: System, tokens: set<string>) {
    OwnershipAgrees(s.desk, tokens) && BridgeAgrees(s, tokens)
  }

  // ---- What applying and restoring do ----

  /**
   An active calibration's frame is never dropped for session, lease or sequence: only a raising sink, a clock
   that ran backwards, or more than six seconds between two consecutive clock readings can reject it.
   */
  lemma ApplyIsNeverDroppedForOwnership(d: Desk, tokens: set<string>, io: ApplyIo)
    requires OwnershipAgrees(d, tokens) && IsActive(d)
    ensures Pose(d, io).decision ==
      (if io.now < io.received then Dropped(InvalidDrop)
       else if io.now > io.received + 6.0 then Dropped(ExpiredDrop)
       else if !io.sinkOk then Dropped(SinkErrorDrop)
       else Accepted)
  {
    assert 6000 as real / 1000.0 == 6.0;
  }

  lemma ApplyKeepsOwnership(d: Desk, tokens: set<string>, io: ApplyIo)
    requires OwnershipAgrees(d, tokens) && IsActive(d)
    ensures OwnershipAgrees(Apply(d, io).0, tokens) && IsActive(Apply(d, io).0)
    ensures Apply(d, io).0.record.value.token == d.record.value.token
  {
    ApplyIsNeverDroppedForOwnership(d, tokens, io);
  }

  predicate SafeObserved(io: RestoreIo) {
    io.sinkOk && io.flushed.Some? && io.safe && io.applied == io.flushed.value
  }

  /**
   An active calibration ends restored exactly when neutralizing succeeded and SAFE output was observed; then
   the gateway is free again. Otherwise it ends failed and keeps the gateway to itself.
   */
  lemma RestoredIffSafeObserved(d: Desk, tokens: set<string>, state: RecordState, io: RestoreIo)
    requires OwnershipAgrees(d, tokens) && IsActive(d) && !state.Active?
    ensures
      var n := Restore(d, state, io);
      var token := d.record.value.token;
      && OwnershipAgrees(n, tokens) && n.record.Some? && n.record.value.token == token
      && (n.record.value.restored <==> SafeObserved(io))
      && (n.record.value.restored ==>
            n.record.value.state == state && n.gateway.session.None? && n.gateway.exclusive.None?)
      && (!n.record.value.restored ==> n.record.value.state.Failed? && Owned(n.gateway, token))
  {
    var g := Neutralize(d.gateway, d.record.value.token, FullBodyPose, 1, io.sinkOk).gateway;
    forall r: Resource ensures g.resources[r].actionId.None? {
      if r != FullBodyPose { assert r == VoiceOutput; }
    }
  }

  // ---- Every operation keeps the ownership ----

  lemma PollKeepsOwnership(d: Desk, tokens: set<string>, now: real, io: RestoreIo)
    requires OwnershipAgrees(d, tokens)
    ensures OwnershipAgrees(Poll(d, now, io), tokens)
    ensures d.deadline <= now ==> !IsActive(Poll(d, now, io))
  {
    if IsActive(d) {
      RestoredIffSafeObserved(d, tokens, Expired, io);
    }
  }

  lemma DrivingKeepsOwnership(d: Desk, tokens: set<string>, io: ApplyIo, restore: RestoreIo)
    requires OwnershipAgrees(d, tokens) && IsActive(d)
    ensures OwnershipAgrees(ApplyOrRestore(d, io, restore).0, tokens)
  {
    ApplyKeepsOwnership(d, tokens, io);
    RestoredIffSafeObserved(Apply(d, io).0, tokens, Failed, restore);
  }

  lemma StartKeepsOwnership(d: Desk, tokens: set<string>, requestId: string, pose: int, io: StartIo)
    requires OwnershipAgrees(d, tokens) && io.token in tokens && io.token != ""
    ensures OwnershipAgrees(Start(d, requestId, pose, io).0, tokens)
  {
    PollKeepsOwnership(d, tokens, io.now, io.polled);
    var polled := Poll(d, io.now, io.polled);
    var claimed := ClaimExclusive(polled.gateway, io.token).gateway;
    var authorized := Authorize(claimed, io.token, Lease(FullBodyPose, 1, Some(io.token))).gateway;
    if polled.gateway.session.None? {
      var record := Record(io.token, requestId, Active, 0, pose, false, None);
      DrivingKeepsOwnership(
        polled.(gateway := authorized, record := Some(record), sequence := 0), tokens, io.apply, io.restore);
    }
  }

  lemma UpdateKeepsOwnership(d: Desk, tokens: set<string>, token: string, revision: int, pose: int, io: UpdateIo)
    requires OwnershipAgrees(d, tokens)
    ensures OwnershipAgrees(PoseUpdate(d, token, revision, pose, io).0, tokens)
  {
    PollKeepsOwnership(d, tokens, io.now, io.polled);
    var polled := Poll(d, io.now, io.polled);
    if IsActive(polled) {
      DrivingKeepsOwnership(Reposed(polled, pose), tokens, io.apply, io.restore);
    }
  }

  lemma HeartbeatKeepsOwnership(d: Desk, tokens: set<string>, token: string, io: UpdateIo)
    requires OwnershipAgrees(d, tokens)
    ensures OwnershipAgrees(Heartbeat(d, token, io).0, tokens)
  {
    PollKeepsOwnership(d, tokens, io.now, io.polled);
    if IsActive(Poll(d, io.now, io.polled)) {
      DrivingKeepsOwnership(Poll(d, io.now, io.polled), tokens, io.apply, io.restore);
    }
  }

  lemma EndKeepsOwnership(d: Desk, tokens: set<string>, token: string, revision: int, verified: bool, io: UpdateIo)
    requires OwnershipAgrees(d, tokens)
    ensures OwnershipAgrees(Finish(d, token, revision, verified, io).0, tokens)
    ensures OwnershipAgrees(Close(d, io.restore), tokens)
  {
    PollKeepsOwnership(d, tokens, io.now, io.polled);
    var polled := Poll(d, io.now, io.polled);
    if IsActive(polled) {
      RestoredIffSafeObserved(polled, tokens, if verified then Confirmed else Canceled, io.restore);
    }
    if IsActive(d) {
      RestoredIffSafeObserved(d.(closed := true), tokens, Canceled, io.restore);
    }
  }

  lemma BridgeStepKeepsSound(s: System, tokens: set<string>, e: Event)
    requires Sound(s, tokens) && Admissible(e, tokens)
    ensures Sound(BridgeStep(s, e), tokens)
    ensures BridgeStep(s, e).desk.record == s.desk.record
  {
  }

  /** A calibration operation leaves the gateway alone while the bridge is connected. */
  lemma BridgeIsNotDisplaced(s: System, tokens: set<string>, e: Event)
    requires Sound(s, tokens) && s.bridge.Some?
    requires e.StartEvent? || e.UpdateEvent? || e.HeartbeatEvent? || e.FinishEvent? || e.PollEvent? || e.CloseEvent?
    ensures Step(s, e).desk.gateway == s.desk.gateway
  {
  }

  lemma StepKeepsSound(s: System, tokens: set<string>, e: Event)
    requires Sound(s, tokens) && Admissible(e, tokens)
    ensures Sound(Step(s, e), tokens)
  {
    var idle := RestoreIo(false, None, false, 0);
    match e
    case StartEvent(requestId, pose, io) =>
      StartKeepsOwnership(s.desk, tokens, requestId, pose, io);
      if s.bridge.Some? { BridgeIsNotDisplaced(s, tokens, e); }
    case UpdateEvent(token, revision, pose, io) =>
      UpdateKeepsOwnership(s.desk, tokens, token, revision, pose, io);
      if s.bridge.Some? { BridgeIsNotDisplaced(s, tokens, e); }
    case HeartbeatEvent(token, io) =>
      HeartbeatKeepsOwnership(s.desk, tokens, token, io);
      if s.bridge.Some? { BridgeIsNotDisplaced(s, tokens, e); }
    case FinishEvent(token, revision, verified, io) =>
      EndKeepsOwnership(s.desk, tokens, token, revision, verified, io);
      if s.bridge.Some? { BridgeIsNotDisplaced(s, tokens, e); }
    case PollEvent(now, io) =>
      PollKeepsOwnership(s.desk, tokens, now, io);
      if s.bridge.Some? { BridgeIsNotDisplaced(s, tokens, e); }
    case CloseEvent(io) =>
      EndKeepsOwnership(s.desk, tokens, "", 0, false, UpdateIo(0.0, idle, ApplyIo(0.0, 0.0, false, None, 0.0), io));
      if s.bridge.Some? { BridgeIsNotDisplaced(s, tokens, e); }
    case _ => BridgeStepKeepsSound(s, tokens, e);
  }

  predicate AllAdmissible(es: seq<Event>, tokens: set<string>) {
    forall e :: e in es ==> Admissible(e, tokens)
  }

  lemma {:induction false} RunKeepsSound(s: System, tokens: set<string>, es: seq<Event>)
    requires Sound(s, tokens) && AllAdmissible(es, tokens)
    ensures Sound(Run(s, es), tokens)
    decreases |es|
  {
    if es != [] {
      assert es[0] in es;
      StepKeepsSound(s, tokens, es[0]);
      RunKeepsSound(Step(s, es[0]), tokens, es[1..]);
    }
  }

  // ---- Main results ----

  /**
   In every reachable state, while a record is active or was not restored, the gateway's session and exclusive
   session both equal its token; no bridge is connected, and every bridge that tries to open is turned away.
   */
  lemma CalibrationIsExclusive(tokens: set<string>, es: seq<Event>, id: string)
    requires AllAdmissible(es, tokens) && id !in tokens && id != ""
    requires var d := Run(NEW_SYSTEM, es).desk; d.record.Some? && (IsActive(d) || !d.record.value.restored)
    ensures
      var s := Run(NEW_SYSTEM, es);
      && s.desk.gateway.session == s.desk.gateway.exclusive == Some(s.desk.record.value.token)
      && s.bridge.None?
      && OpenSession(s.desk.gateway, id) == SessionOutcome(s.desk.gateway, CalibrationOwnsOutput)
  {
    RunKeepsSound(NEW_SYSTEM, tokens, es);
  }

  /** In no reachable state does the gateway drop an active calibration's frame for session, lease or sequence. */
  lemma ReachableApplyIsNeverDropped(tokens: set<string>, es: seq<Event>, io: ApplyIo)
    requires AllAdmissible(es, tokens) && IsActive(Run(NEW_SYSTEM, es).desk)
    ensures Pose(Run(NEW_SYSTEM, es).desk, io).decision !in
              {Dropped(SessionDrop), Dropped(LeaseDrop), Dropped(SequenceDrop)}
  {
    RunKeepsSound(NEW_SYSTEM, tokens, es);
    ApplyIsNeverDroppedForOwnership(Run(NEW_SYSTEM, es).desk, tokens, io);
  }

  ghost predicate Stuck(s: System, token: string) {
    && s.desk.record.Some? && s.desk.record.value.token == token
    && s.desk.record.value.state.Failed? && !s.desk.record.value.restored
  }

  lemma StuckStep(s: System, tokens: set<string>, e: Event)
    requires Sound(s, tokens) && Admissible(e, tokens) && s.desk.record.Some? && Stuck(s, s.desk.record.value.token)
    ensures Step(s, e).desk.record == s.desk.record && Step(s, e).bridge.None?
  {
  }

  /** A failed restoration keeps the ownership for good: no later run gives the output to anybody else. */
  lemma {:induction false} FailedRestorationIsNeverHidden(s: System, tokens: set<string>, token: string, es: seq<Event>)
    requires Sound(s, tokens) && Stuck(s, token) && AllAdmissible(es, tokens)
    ensures Stuck(Run(s, es), token) && Owned(Run(s, es).desk.gateway, token) && Run(s, es).bridge.None?
    decreases |es|
  {
    if es != [] {
      assert es[0] in es;
      StuckStep(s, tokens, es[0]);
      StepKeepsSound(s, tokens, es[0]);
      FailedRestorationIsNeverHidden(Step(s, es[0]), tokens, token, es[1..]);
    }
  }
}
