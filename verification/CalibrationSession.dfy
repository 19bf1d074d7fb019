/** The calibration object over a gateway object it shares with the bridge, proved against CalibrationModel. */
module CalibrationSession {
  import opened Contracts
  import opened GatewayModel
  import opened DeviceGateway
  import opened CalibrationModel

  class CalibrationSession {
    const gateway: DeviceGateway
    var record: Option<Record>
    var deadline: real
    var sequence: nat
    var closed: bool
    /** The frames the gateway took from this session. */
    ghost var written: seq<Envelope>

    ghost function Model(): Desk
      reads this, gateway
    {
      Desk(gateway.Model(), record, deadline, sequence, closed, written)
    }

    constructor (gateway: DeviceGateway)
      ensures Model() == Desk(gateway.Model(), None, 0.0, 0, false, []) && this.gateway == gateway
    {
      this.gateway := gateway;
      record, deadline, sequence, closed, written := None, 0.0, 0, false, [];
    }

    method Apply(io: ApplyIo) returns (ok: bool)
      requires record.Some?
      modifies this, gateway
      ensures (Model(), ok) == CalibrationModel.Apply(old(Model()), io)
    {
      var r := record.value;
      var frame := Envelope(r.token, r.token, FullBodyPose, 1, sequence, ENVELOPE_TTL_MS, r.pose);
      var decision := gateway.ApplyEnvelope(frame, io.received, io.now, io.sinkOk);
      if decision != Accepted {
        return false;
      }
      written := written + [frame];
      sequence := sequence + 1;
      if io.flushed.None? {
        return false;
      }
      record := Some(r.(applied := io.flushed));
      deadline := io.after + TTL;
      return true;
    }

    method Restore(state: RecordState, io: RestoreIo)
      requires record.Some?
      modifies this, gateway
      ensures Model() == CalibrationModel.Restore(old(Model()), state, io)
    {
      var r := record.value;
      record := Some(r.(state := Failed, restored := false));
      var neutralized := gateway.Neutralize(r.token, FullBodyPose, 1, io.sinkOk);
      if neutralized != Accepted || io.flushed.None? || !io.safe || io.applied != io.flushed.value {
        return;
      }
      var released := gateway.ReleaseExclusive(r.token);
      if released == SessionOk {
        record := Some(r.(state := state, restored := true));
      }
    }

    method Poll(now: real, io: RestoreIo)
      modifies this, gateway
      ensures Model() == CalibrationModel.Poll(old(Model()), now, io)
    {
      if record.Some? && record.value.state.Active? && now >= deadline {
        Restore(Expired, io);
      }
    }

    method ApplyOrRestore(io: ApplyIo, restore: RestoreIo) returns (reply: Reply)
      requires record.Some?
      modifies this, gateway
      ensures (Model(), reply) == CalibrationModel.ApplyOrRestore(old(Model()), io, restore)
    {
      var ok := Apply(io);
      if ok {
        return Granted(record.value);
      }
      Restore(Failed, restore);
      return Refused(ApplyFailed);
    }

    method Start(requestId: string, pose: int, io: StartIo) returns (reply: Reply)
      modifies this, gateway
      ensures (Model(), reply) == CalibrationModel.Start(old(Model()), requestId, pose, io)
    {
      Poll(io.now, io.polled);
      if closed {
        return Refused(ServiceClosed);
      }
      if record.Some? && record.value.requestId == requestId {
        return if record.value.state.Active? then Granted(record.value) else Refused(RequestEnded);
      }
      if record.Some? && record.value.state.Active? {
        return Refused(AnotherActive);
      }
      if !io.trackerSafe {
        return Refused(TrackerNotSafe);
      }
      var claimed := gateway.ClaimExclusive(io.token);
      if claimed != SessionOk {
        return Refused(OutputBusy);
      }
      record := Some(Record(io.token, requestId, Active, 0, pose, false, None));
      sequence := 0;
      var authorized := gateway.Authorize(io.token, Lease(FullBodyPose, 1, Some(io.token)));
      reply := ApplyOrRestore(io.apply, io.restore);
    }

    method Update(token: string, revision: int, pose: int, io: UpdateIo) returns (reply: Reply)
      modifies this, gateway
      ensures (Model(), reply) == CalibrationModel.PoseUpdate(old(Model()), token, revision, pose, io)
    {
      Poll(io.now, io.polled);
      if record.None? || record.value.token != token {
        return Refused(UnknownToken);
      }
      if !record.value.state.Active? {
        return Refused(NotActive);
      }
      if revision != record.value.revision {
        return Refused(RevisionChanged);
      }
      Repose(pose);
      reply := ApplyOrRestore(io.apply, io.restore);
    }

    method Repose(pose: int)
      requires record.Some?
      modifies this`record
      ensures Model() == Reposed(old(Model()), pose)
    {
      record := Some(record.value.(pose := pose, revision := record.value.revision + 1));
    }

    method Heartbeat(token: string, io: UpdateIo) returns (reply: Reply)
      modifies this, gateway
      ensures (Model(), reply) == CalibrationModel.Heartbeat(old(Model()), token, io)
    {
      Poll(io.now, io.polled);
      if record.None? || record.value.token != token {
        return Refused(UnknownToken);
      }
      if !record.value.state.Active? {
        return Refused(NotActive);
      }
      reply := ApplyOrRestore(io.apply, io.restore);
    }

    method Finish(token: string, revision: int, verified: bool, io: UpdateIo) returns (reply: Reply)
      modifies this, gateway
      ensures (Model(), reply) == CalibrationModel.Finish(old(Model()), token, revision, verified, io)
    {
      Poll(io.now, io.polled);
      if record.None? || record.value.token != token {
        return Refused(UnknownToken);
      }
      if !record.value.state.Active? {
        return Granted(record.value);
      }
      if revision != record.value.revision {
        return Refused(RevisionChanged);
      }
      Restore(if verified then Confirmed else Canceled, io.restore);
      return Granted(record.value);
    }

    method Close(io: RestoreIo)
      modifies this, gateway
      ensures Model() == CalibrationModel.Close(old(Model()), io)
    {
      closed := true;
      if record.Some? && record.value.state.Active? {
        Restore(Canceled, io);
      }
    }
  }
}
