/** The gateway object itself: fields updated in place, proved against GatewayModel. */
module DeviceGateway {
  import opened Contracts
  import opened GatewayModel

  class DeviceGateway {
    var session: Option<string>
    var exclusive: Option<string>
    var resources: Table
    var drops: multiset<DropReason>

    ghost function Model(): Gateway
      reads this
    {
      Gateway(session, exclusive, resources, drops)
    }

    constructor ()
      ensures Model() == GatewayModel.INITIAL
    {
      session, exclusive, resources := None, None, UNUSED_TABLE;
      drops := multiset{};
    }

    method OpenSession(sessionId: string) returns (result: SessionResult)
      modifies this
      ensures SessionOutcome(Model(), result) == GatewayModel.OpenSession(old(Model()), sessionId)
    {
      if sessionId == "" {
        return EmptySessionId;
      }
      if exclusive.Some? && exclusive.value != "" && exclusive != Some(sessionId) {
        return CalibrationOwnsOutput;
      }
      if session != Some(sessionId) {
        session := Some(sessionId);
        resources := UNUSED_TABLE;
      }
      return SessionOk;
    }

    method ClaimExclusive(sessionId: string) returns (result: SessionResult)
      modifies this
      ensures SessionOutcome(Model(), result) == GatewayModel.ClaimExclusive(old(Model()), sessionId)
    {
      if session.Some? {
        return DevicesBusy;
      }
      result := OpenSession(sessionId);
      if result == SessionOk {
        exclusive := Some(sessionId);
      }
    }

    method ReleaseExclusive(sessionId: string) returns (result: SessionResult)
      modifies this
      ensures SessionOutcome(Model(), result) == GatewayModel.ReleaseExclusive(old(Model()), sessionId)
    {
      if exclusive != Some(sessionId) || session != Some(sessionId) {
        return ExclusiveChanged;
      }
      if exists r: Resource :: resources[r].actionId.Some? {
        return OutputsStillOwned;
      }
      exclusive, session := None, None;
      return SessionOk;
    }

    method CloseSession(sessionId: string) returns (decision: Decision)
      modifies this
      ensures Outcome(Model(), decision) == GatewayModel.CloseSession(old(Model()), sessionId)
    {
      if session != Some(sessionId) {
        decision := Drop(SessionDrop);
        return;
      }
      resources := map r: Resource | r in resources :: resources[r].(actionId := None, expires := None);
      session, exclusive := None, None;
      return Accepted;
    }

    method Authorize(sessionId: string, lease: Lease) returns (decision: Decision)
      modifies this
      ensures Outcome(Model(), decision) == GatewayModel.Authorize(old(Model()), sessionId, lease)
    {
      if session != Some(sessionId) {
        decision := Drop(SessionDrop);
        return;
      }
      if lease.actionId.None? || lease.token <= 0 {
        decision := Drop(InvalidDrop);
        return;
      }
      var state := resources[lease.resource];
      if lease.token == state.leaseToken && lease.actionId == state.actionId {
        return Accepted;
      }
      if lease.token <= state.leaseToken {
        decision := Drop(LeaseDrop);
        return;
      }
      resources := resources[lease.resource := ResourceState(lease.token, lease.actionId, -1, None)];
      return Accepted;
    }

    method Neutralize(sessionId: string, r: Resource, token: int, sinkOk: bool) returns (decision: Decision)
      modifies this
      ensures Outcome(Model(), decision) == GatewayModel.Neutralize(old(Model()), sessionId, r, token, sinkOk)
    {
      if session != Some(sessionId) {
        decision := Drop(SessionDrop);
        return;
      }
      var state := resources[r];
      if token < state.leaseToken {
        decision := Drop(LeaseDrop);
        return;
      }
      if token > state.leaseToken {
        state := state.(leaseToken := token, lastSequence := -1);
      }
      state := state.(actionId := None, expires := None);
      resources := resources[r := state];
      if !sinkOk {
        decision := Drop(SinkErrorDrop);
        return;
      }
      return Accepted;
    }

    method ApplyEnvelope(e: Envelope, received: real, now: real, sinkOk: bool) returns (decision: Decision)
      modifies this
      ensures Outcome(Model(), decision) == GatewayModel.ApplyEnvelope(old(Model()), e, received, now, sinkOk)
    {
      if session != Some(e.sessionId) {
        decision := Drop(SessionDrop);
        return;
      }
      if e.actionId == "" || e.sequence < 0 || e.ttlMs <= 0 || now < received {
        decision := Drop(InvalidDrop);
        return;
      }
      var state := resources[e.resource];
      if e.leaseToken != state.leaseToken || state.actionId != Some(e.actionId) {
        decision := Drop(LeaseDrop);
        return;
      }
      if e.sequence <= state.lastSequence {
        decision := Drop(SequenceDrop);
        return;
      }
      var expires := received + e.ttlMs as real / 1000.0;
      if now > expires {
        decision := Drop(ExpiredDrop);
        return;
      }
      if !sinkOk {
        decision := Drop(SinkErrorDrop);
        return;
      }
      resources := resources[e.resource := state.(lastSequence := e.sequence, expires := Some(expires))];
      return Accepted;
    }

    /** The watchdog loop revokes every overdue owner. */
    method PollExpired(now: real) returns (expired: set<Resource>)
      modifies this`resources
      ensures Model() == GatewayModel.PollExpired(old(Model()), now)
      ensures forall r :: r in expired <==> Overdue(old(resources)[r], now)
    {
      expired := {};
      ghost var was := resources;
      var todo := resources.Keys;
      while todo != {}
        invariant forall r: Resource | r in todo :: resources[r] == was[r] && r !in expired
        invariant forall r: Resource | r !in todo :: (r in expired) == Overdue(was[r], now)
        invariant forall r: Resource | r !in todo && r !in expired :: resources[r] == was[r]
        invariant forall r | r in expired :: resources[r] == was[r].(actionId := None, expires := None)
        decreases todo
      {
        var r :| r in todo;
        var state := resources[r];
        todo := todo - {r};
        if state.actionId.Some? && state.expires.Some? && state.expires.value <= now {
          resources := resources[r := state.(actionId := None, expires := None)];
          expired := expired + {r};
        }
      }
    }

    method Drop(why: DropReason) returns (decision: Decision)
      modifies this`drops
      ensures Outcome(Model(), decision) == GatewayModel.Drop(old(Model()), why)
    {
      drops := drops + multiset{why};
      return Dropped(why);
    }
  }
}
