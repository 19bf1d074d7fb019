/**
 The Windows device gateway as a state machine: the only process allowed to write
 the avatar's devices. Each transition is one lock-held section. Whether the
 device sink raises is an input (`sinkOk`), and so are all clock readings.
 */
module GatewayModel {
  import opened Contracts

  datatype DropReason =
    | SessionDrop
    | LeaseDrop
    | SequenceDrop
    | ExpiredDrop
    | InvalidDrop
    | SinkErrorDrop

  datatype Decision = Accepted | Dropped(reason: DropReason)

  datatype ResourceState = ResourceState(
    leaseToken: int,
    actionId: Option<string>,
    lastSequence: int,
    expires: Option<real>)

  const UNUSED := ResourceState(0, None, -1, None)

  /** One entry for every resource. */
  type Table = t: map<Resource, ResourceState> | forall r: Resource :: r in t
    witness map r: Resource :: UNUSED

  const UNUSED_TABLE: Table := map r: Resource :: UNUSED

  datatype Gateway = Gateway(
    session: Option<string>,
    exclusive: Option<string>,
    resources: Table,
    drops: multiset<DropReason>)

  const INITIAL := Gateway(None, None, UNUSED_TABLE, multiset{})

  datatype Outcome = Outcome(gateway: Gateway, decision: Decision)

  datatype SessionResult =
    SessionOk | EmptySessionId | CalibrationOwnsOutput | DevicesBusy | ExclusiveChanged | OutputsStillOwned

  datatype SessionOutcome = SessionOutcome(gateway: Gateway, result: SessionResult)

  function Drop(g: Gateway, why: DropReason): Outcome {
    Outcome(g.(drops := g.drops + multiset{why}), Dropped(why))
  }

  function Update(g: Gateway, r: Resource, s: ResourceState): Gateway {
    g.(resources := g.resources[r := s])
  }

  function OpenSession(g: Gateway, sessionId: string): SessionOutcome {
    if sessionId == "" then SessionOutcome(g, EmptySessionId)
    else if g.exclusive.Some? && g.exclusive.value != "" && g.exclusive != Some(sessionId) then
      SessionOutcome(g, CalibrationOwnsOutput)
    else if g.session == Some(sessionId) then SessionOutcome(g, SessionOk)
    else SessionOutcome(g.(session := Some(sessionId), resources := UNUSED_TABLE), SessionOk)
  }

  function ClaimExclusive(g: Gateway, sessionId: string): SessionOutcome {
    if g.session.Some? then SessionOutcome(g, DevicesBusy)
    else
      var attempt := OpenSession(g, sessionId);
      if attempt.result != SessionOk then attempt
      else SessionOutcome(attempt.gateway.(exclusive := Some(sessionId)), SessionOk)
  }

  predicate AnyOwned(g: Gateway) {
    exists r: Resource :: g.resources[r].actionId.Some?
  }

  function ReleaseExclusive(g: Gateway, sessionId: string): SessionOutcome {
    if g.exclusive != Some(sessionId) || g.session != Some(sessionId) then SessionOutcome(g, ExclusiveChanged)
    else if AnyOwned(g) then SessionOutcome(g, OutputsStillOwned)
    else SessionOutcome(g.(exclusive := None, session := None), SessionOk)
  }

  function Disown(t: Table): Table {
    map r: Resource | r in t :: t[r].(actionId := None, expires := None)
  }

  function CloseSession(g: Gateway, sessionId: string): Outcome {
    if g.session != Some(sessionId) then Drop(g, SessionDrop)
    else Outcome(g.(session := None, exclusive := None, resources := Disown(g.resources)), Accepted)
  }

  function Authorize(g: Gateway, sessionId: string, lease: Lease): Outcome {
    if g.session != Some(sessionId) then Drop(g, SessionDrop)
    else if lease.actionId.None? || lease.token <= 0 then Drop(g, InvalidDrop)
    else
      var s := g.resources[lease.resource];
      if lease.token == s.leaseToken && lease.actionId == s.actionId then Outcome(g, Accepted)
      else if lease.token <= s.leaseToken then Drop(g, LeaseDrop)
      else Outcome(Update(g, lease.resource, ResourceState(lease.token, lease.actionId, -1, None)), Accepted)
  }

  function Neutralize(g: Gateway, sessionId: string, r: Resource, token: int, sinkOk: bool): Outcome {
    if g.session != Some(sessionId) then Drop(g, SessionDrop)
    else
      var s := g.resources[r];
      if token < s.leaseToken then Drop(g, LeaseDrop)
      else
        var last := if token > s.leaseToken then -1 else s.lastSequence;
        var fenced := Update(g, r, ResourceState(token, None, last, None));
        if sinkOk then Outcome(fenced, Accepted) else Drop(fenced, SinkErrorDrop)
  }

  function Expiry(e: Envelope, received: real): real {
    received + e.ttlMs as real / 1000.0
  }

  function ApplyEnvelope(g: Gateway, e: Envelope, received: real, now: real, sinkOk: bool): Outcome {
    if g.session != Some(e.sessionId) then Drop(g, SessionDrop)
    else if e.actionId == "" || e.sequence < 0 || e.ttlMs <= 0 || now < received then Drop(g, InvalidDrop)
    else
      var s := g.resources[e.resource];
      if e.leaseToken != s.leaseToken || s.actionId != Some(e.actionId) then Drop(g, LeaseDrop)
      else if e.sequence <= s.lastSequence then Drop(g, SequenceDrop)
      else if now > Expiry(e, received) then Drop(g, ExpiredDrop)
      else if !sinkOk then Drop(g, SinkErrorDrop)
      else Outcome(
          Update(g, e.resource, s.(lastSequence := e.sequence, expires := Some(Expiry(e, received)))),
          Accepted)
  }

  predicate Overdue(s: ResourceState, now: real) {
    s.actionId.Some? && s.expires.Some? && s.expires.value <= now
  }

  /** The watchdog: an overdue owner is revoked, and only a higher token can drive the device again. */
  function PollExpired(g: Gateway, now: real): Gateway {
    g.(resources := map r: Resource | r in g.resources ::
        if Overdue(g.resources[r], now) then g.resources[r].(actionId := None, expires := None) else g.resources[r])
  }
}
