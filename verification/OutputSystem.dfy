/**
 Both machines together. The Mac issues control messages and data envelopes; the network may delay,
 reorder, repeat or lose anything; the Windows gateway processes what arrives and acknowledges control
 messages. Executors are adversaries: any envelope may be sent at any time.
 */
module OutputSystem {
  import opened Contracts
  import opened GatewayModel
  import GatewayRuns
  import TransportModel

  datatype Control = AuthorizeControl(lease: Lease) | NeutralizeControl(resource: Resource, token: int)

  function ResourceOf(c: Control): Resource {
    if c.AuthorizeControl? then c.lease.resource else c.resource
  }

  datatype Message =
    | ControlMessage(id: string, sessionId: string, control: Control)
    | DataMessage(envelope: Envelope)

  datatype Ack = Ack(id: string, accepted: bool)

  /** When a neutralize was first accepted: how much had been written, and which sessions were left, by then. */
  datatype Fence = Fence(sessionId: string, resource: Resource, token: int, mark: nat, left: set<string>)

  datatype System = System(
    transport: TransportModel.Transport,
    sent: set<Message>,
    acks: set<Ack>,
    gateway: Gateway,
    usedIds: set<string>,
    usedSessions: set<string>,
    written: seq<Envelope>,
    fences: map<string, Fence>,
    returned: set<string>)

  const START := System(TransportModel.DISCONNECTED, {}, {}, INITIAL, {}, {}, [], map[], {})

  datatype Step =
    | MacOpen(sessionId: string)
    | MacClose(sessionId: string)
    | BeginControl(id: string, sessionId: string, control: Control)
    | SendData(envelope: Envelope)
    | WindowsOpen(openId: string)
    | WindowsClose(closeId: string)
    | Calibrate(claimId: string)
    | EndCalibration(releaseId: string)
    | Deliver(message: Message, received: real, now: real, sinkOk: bool)
    | Watchdog(now: real)
    | DeliverAck(ack: Ack)
    | Conclude(id: string, timedOut: bool)
    | EndCall(id: string)

  /** Message ids and session ids are fresh, and only what was sent is delivered. */
  predicate Enabled(s: System, step: Step) {
    match step
    case BeginControl(id, _, _) => id !in s.usedIds
    case WindowsOpen(sid) => sid !in s.usedSessions || s.gateway.session == Some(sid)
    case Calibrate(sid) => sid !in s.usedSessions
    case Deliver(message, _, _, _) => message in s.sent
    case DeliverAck(ack) => ack in s.acks
    case Conclude(id, _) => id in s.transport.acks
    case _ => true
  }

  function NewFence(s: System, sid: string, r: Resource, f: int): Fence {
    Fence(sid, r, f, |s.written|, s.usedSessions - {sid})
  }

  function DeliverControl(s: System, id: string, sid: string, control: Control, sinkOk: bool): System {
    match control
    case AuthorizeControl(lease) =>
      var out := Authorize(s.gateway, sid, lease);
      s.(gateway := out.gateway, acks := s.acks + {Ack(id, out.decision.Accepted?)})
    case NeutralizeControl(r, f) =>
      var out := Neutralize(s.gateway, sid, r, f, sinkOk);
      s.(gateway := out.gateway,
         acks := s.acks + {Ack(id, out.decision.Accepted?)},
         fences := if out.decision.Accepted? && id !in s.fences
                   then s.fences[id := NewFence(s, sid, r, f)] else s.fences)
  }

  function DeliverData(s: System, e: Envelope, received: real, now: real, sinkOk: bool): System {
    var out := ApplyEnvelope(s.gateway, e, received, now, sinkOk);
    s.(gateway := out.gateway, written := if out.decision.Accepted? then s.written + [e] else s.written)
  }

  /** The calling thread reads the outcome of its wait; the table entry is cleared by `EndCall`. */
  function Conclusion(s: System, id: string, timedOut: bool): System
    requires id in s.transport.acks
  {
    var result := TransportModel.ControlOutcome(s.transport, id, timedOut);
    s.(returned := if result.Returned? then s.returned + {id} else s.returned)
  }

  function Next(s: System, step: Step): System
    requires Enabled(s, step)
  {
    match step
    case MacOpen(sid) => s.(transport := TransportModel.OpenSession(s.transport, sid).0)
    case MacClose(sid) => s.(transport := TransportModel.CloseSession(s.transport, sid).0)
    case BeginControl(id, sid, control) =>
      s.(transport := TransportModel.BeginControl(s.transport, id),
         sent := s.sent + {ControlMessage(id, sid, control)},
         usedIds := s.usedIds + {id})
    case SendData(e) => s.(sent := s.sent + {DataMessage(e)})
    case WindowsOpen(sid) => s.(gateway := OpenSession(s.gateway, sid).gateway, usedSessions := s.usedSessions + {sid})
    case WindowsClose(sid) => s.(gateway := CloseSession(s.gateway, sid).gateway)
    case Calibrate(sid) => s.(gateway := ClaimExclusive(s.gateway, sid).gateway, usedSessions := s.usedSessions + {sid})
    case EndCalibration(sid) => s.(gateway := ReleaseExclusive(s.gateway, sid).gateway)
    case Deliver(ControlMessage(id, sid, control), _, _, sinkOk) => DeliverControl(s, id, sid, control, sinkOk)
    case Deliver(DataMessage(e), received, now, sinkOk) => DeliverData(s, e, received, now, sinkOk)
    case Watchdog(now) => s.(gateway := PollExpired(s.gateway, now))
    case DeliverAck(ack) => s.(transport := TransportModel.ReceiveAck(s.transport, ack.id, ack.accepted).0)
    case Conclude(id, timedOut) => Conclusion(s, id, timedOut)
    case EndCall(id) => s.(transport := TransportModel.EndControl(s.transport, id))
  }

  predicate Possible(s: System, steps: seq<Step>)
    decreases |steps|
  {
    steps != [] ==> Enabled(s, steps[0]) && Possible(Next(s, steps[0]), steps[1..])
  }

  function Run(s: System, steps: seq<Step>): System
    requires Possible(s, steps)
    decreases |steps|
  {
    if steps == [] then s else Run(Next(s, steps[0]), steps[1..])
  }

  // ---- The invariant ----

  /**
   From its mark on, nothing at or below the fence has been written in its session and nothing in a session left by
   then; and nothing will be.
   */
  ghost predicate FenceHolds(s: System, f: Fence) {
    && f.sessionId in s.usedSessions && f.left <= s.usedSessions
    && f.mark <= |s.written|
    && (s.gateway.session == Some(f.sessionId) ==> GatewayRuns.Fenced(s.gateway, f.resource, f.token))
    && (s.gateway.session.Some? ==> s.gateway.session.value !in f.left)
    && forall i :: f.mark <= i < |s.written| ==> Passes(s.written[i], f)
  }

  ghost predicate Passes(e: Envelope, f: Fence) {
    e.sessionId !in f.left && (e.sessionId == f.sessionId && e.resource == f.resource ==> e.leaseToken > f.token)
  }

  ghost predicate FencesHold(s: System) {
    && (s.gateway.session.Some? ==> s.gateway.session.value in s.usedSessions)
    && forall id :: id in s.fences ==> FenceHolds(s, s.fences[id])
  }

  /** Ids name one message each; an accepting answer is backed by an opened session, about a neutralize by a fence. */
  ghost predicate AcksBacked(s: System) {
    && (forall m :: m in s.sent && m.ControlMessage? ==> m.id in s.usedIds)
    && (forall a, b :: a in s.sent && b in s.sent && a.ControlMessage? && b.ControlMessage? && a.id == b.id ==> a == b)
    && (forall m :: m in s.sent && m.ControlMessage? && Ack(m.id, true) in s.acks ==> m.sessionId in s.usedSessions)
    && (forall m :: m in s.sent && m.ControlMessage? && m.control.NeutralizeControl? && Ack(m.id, true) in s.acks ==>
          Backed(s, m))
    && (forall a :: a in s.acks ==> a.id in s.usedIds)
    && (forall id :: id in s.transport.acks ==>
          id in s.usedIds && (s.transport.acks[id].response == Some(true) ==> Ack(id, true) in s.acks))
    && (forall id :: id in s.returned || id in s.fences ==> Ack(id, true) in s.acks)
  }

  ghost predicate Backed(s: System, m: Message)
    requires m.ControlMessage? && m.control.NeutralizeControl?
  {
    m.id in s.fences
    && s.fences[m.id] ==
         Fence(m.sessionId, m.control.resource, m.control.token, s.fences[m.id].mark, s.fences[m.id].left)
  }

  /** An authorization of this very token and action, sent for this session. */
  ghost predicate Authorizes(m: Message, sid: string, r: Resource, token: int, actionId: Option<string>) {
    m.ControlMessage? && m.sessionId == sid && m.control == AuthorizeControl(Lease(r, token, actionId))
  }

  ghost predicate AuthorizedBy(sent: set<Message>, sid: string, r: Resource, token: int, actionId: Option<string>) {
    exists m :: m in sent && Authorizes(m, sid, r, token, actionId)
  }

  /** Whoever owns an output, and whatever was written, was authorized by a message sent for that session. */
  ghost predicate OwnersAuthorized(s: System) {
    && (s.gateway.session.Some? ==> forall r: Resource :: s.gateway.resources[r].actionId.Some? ==>
          AuthorizedBy(s.sent, s.gateway.session.value, r,
                       s.gateway.resources[r].leaseToken, s.gateway.resources[r].actionId))
    && (forall i :: 0 <= i < |s.written| ==> WriteAuthorized(s, s.written[i]))
  }

  ghost predicate WriteAuthorized(s: System, e: Envelope) {
    AuthorizedBy(s.sent, e.sessionId, e.resource, e.leaseToken, Some(e.actionId))
  }

  ghost predicate Invariant(s: System) {
    FencesHold(s) && AcksBacked(s) && OwnersAuthorized(s)
  }

  lemma StartInvariant()
    ensures Invariant(START)
  {
  }

  lemma GatewayStepKeepsFenced(g: Gateway, e: GatewayRuns.Event, r: Resource, f: int)
    requires GatewayRuns.Fenced(g, r, f)
    ensures GatewayRuns.Fenced(GatewayRuns.Step(g, e).gateway, r, f)
    ensures GatewayRuns.Step(g, e).gateway.session == g.session
  {
  }

  /** What passes the gateway of a fenced resource is above the fence. */
  lemma DeliveryKeepsFence(s: System, step: Step, f: Fence)
    requires step.Deliver? && Enabled(s, step) && FenceHolds(s, f)
    ensures FenceHolds(Next(s, step), f)
  {
    var Deliver(m, received, now, sinkOk) := step;
    if s.gateway.session == Some(f.sessionId) {
      if m.DataMessage? {
        GatewayStepKeepsFenced(s.gateway,
          GatewayRuns.DataEvent(m.envelope, received, now, sinkOk), f.resource, f.token);
      } else if m.control.AuthorizeControl? {
        GatewayStepKeepsFenced(s.gateway,
          GatewayRuns.AuthorizeEvent(m.sessionId, m.control.lease), f.resource, f.token);
      } else {
        GatewayStepKeepsFenced(
          s.gateway, GatewayRuns.NeutralizeEvent(m.sessionId, m.control.resource, m.control.token, sinkOk),
          f.resource, f.token);
      }
    }
  }

  lemma NextKeepsFence(s: System, step: Step, f: Fence)
    requires Enabled(s, step) && FenceHolds(s, f)
    ensures FenceHolds(Next(s, step), f)
  {
    if step.Deliver? {
      DeliveryKeepsFence(s, step, f);
    } else {
      assert Next(s, step).written == s.written;
    }
  }

  lemma NextKeepsFences(s: System, step: Step)
    requires Enabled(s, step) && FencesHold(s)
    ensures FencesHold(Next(s, step))
  {
    var next := Next(s, step);
    forall id | id in next.fences ensures FenceHolds(next, next.fences[id]) {
      if id in s.fences {
        NextKeepsFence(s, step, s.fences[id]);
      }
    }
  }

  /** An answer about `m` is the only new one, and an accepting answer comes from an open session. */
  lemma DeliveryAnswersOnce(s: System, step: Step)
    requires step.Deliver? && Enabled(s, step) && FencesHold(s) && AcksBacked(s)
    ensures forall a :: a in Next(s, step).acks && a !in s.acks ==>
              && step.message.ControlMessage? && a.id == step.message.id
              && (a.accepted ==> step.message.sessionId in s.usedSessions)
    ensures forall id :: id in Next(s, step).fences && id !in s.fences ==> Ack(id, true) in Next(s, step).acks
    ensures step.message.ControlMessage? && step.message.control.NeutralizeControl? ==>
              Ack(step.message.id, true) in Next(s, step).acks ==> Backed(Next(s, step), step.message)
    ensures forall id :: id in s.fences ==> id in Next(s, step).fences && Next(s, step).fences[id] == s.fences[id]
  {
  }

  lemma DeliveryKeepsAcks(s: System, step: Step)
    requires step.Deliver? && Enabled(s, step) && FencesHold(s) && AcksBacked(s)
    ensures AcksBacked(Next(s, step))
  {
    var n := Next(s, step);
    DeliveryAnswersOnce(s, step);
    assert n.sent == s.sent && n.usedIds == s.usedIds && n.transport == s.transport && n.returned == s.returned;
    assert n.usedSessions == s.usedSessions && s.acks <= n.acks;
    forall m | m in n.sent && m.ControlMessage? && m.control.NeutralizeControl? && Ack(m.id, true) in n.acks
      ensures Backed(n, m)
    {
      if Ack(m.id, true) !in s.acks {
        assert m == step.message;
      } else {
        assert Backed(s, m);
      }
    }
  }

  lemma BeginKeepsAcks(s: System, step: Step)
    requires step.BeginControl? && Enabled(s, step) && AcksBacked(s)
    ensures AcksBacked(Next(s, step))
  {
  }

  /** The steps of the Mac and of the sessions send no control message and answer none. */
  lemma QuietStepKeepsAcks(s: System, step: Step)
    requires !step.Deliver? && !step.BeginControl? && Enabled(s, step) && AcksBacked(s)
    ensures AcksBacked(Next(s, step))
  {
    var n := Next(s, step);
    assert n.acks == s.acks && n.fences == s.fences && n.usedIds == s.usedIds && s.usedSessions <= n.usedSessions;
    forall m | m in n.sent && m.ControlMessage? && m.control.NeutralizeControl? && Ack(m.id, true) in n.acks
      ensures Backed(n, m)
    {
      assert m in s.sent && Backed(s, m);
    }
  }

  lemma NextKeepsAcks(s: System, step: Step)
    requires Enabled(s, step) && FencesHold(s) && AcksBacked(s)
    ensures AcksBacked(Next(s, step))
  {
    if step.Deliver? {
      DeliveryKeepsAcks(s, step);
    } else if step.BeginControl? {
      BeginKeepsAcks(s, step);
    } else {
      QuietStepKeepsAcks(s, step);
    }
  }

  lemma SentStaysAuthorized(
      sent: set<Message>, more: set<Message>, sid: string, r: Resource, token: int, a: Option<string>)
    requires AuthorizedBy(sent, sid, r, token, a) && sent <= more
    ensures AuthorizedBy(more, sid, r, token, a)
  {
    var m :| m in sent && Authorizes(m, sid, r, token, a);
    assert m in more;
  }

  lemma WritesStayAuthorized(s: System, n: System)
    requires OwnersAuthorized(s) && s.sent <= n.sent
    ensures forall i :: 0 <= i < |s.written| ==> WriteAuthorized(n, s.written[i])
  {
    forall i | 0 <= i < |s.written| ensures WriteAuthorized(n, s.written[i]) {
      var e := s.written[i];
      assert WriteAuthorized(s, e);
      SentStaysAuthorized(s.sent, n.sent, e.sessionId, e.resource, e.leaseToken, Some(e.actionId));
    }
  }

  /** The owner of an output after a step owned it before, or the step delivered its authorization. */
  lemma OwnerIsOldOrDelivered(s: System, step: Step, r: Resource)
    requires Enabled(s, step)
    ensures
      var n := Next(s, step);
      n.gateway.session.Some? && n.gateway.resources[r].actionId.Some? ==>
        || (n.gateway.session == s.gateway.session && n.gateway.resources[r].actionId == s.gateway.resources[r].actionId
            && n.gateway.resources[r].leaseToken == s.gateway.resources[r].leaseToken)
        || AuthorizedBy(s.sent, n.gateway.session.value, r,
                        n.gateway.resources[r].leaseToken, n.gateway.resources[r].actionId)
  {
    if step.Deliver? && step.message.ControlMessage? && step.message.control.AuthorizeControl? {
      var m := step.message;
      assert m in s.sent
        && Authorizes(m, m.sessionId, m.control.lease.resource, m.control.lease.token, m.control.lease.actionId);
    }
  }

  lemma NewWriteHadAnOwner(s: System, step: Step)
    requires Enabled(s, step)
    ensures Next(s, step).written == s.written ||
      exists e :: Next(s, step).written == s.written + [e] && s.gateway.session == Some(e.sessionId)
        && s.gateway.resources[e.resource].leaseToken == e.leaseToken
        && s.gateway.resources[e.resource].actionId == Some(e.actionId)
  {
  }

  lemma NextKeepsOwners(s: System, step: Step)
    requires Enabled(s, step) && OwnersAuthorized(s)
    ensures OwnersAuthorized(Next(s, step))
  {
    var n := Next(s, step);
    WritesStayAuthorized(s, n);
    NewWriteHadAnOwner(s, step);
    forall i | 0 <= i < |n.written| ensures WriteAuthorized(n, n.written[i]) {
      if i == |s.written| {
        var e := n.written[i];
        SentStaysAuthorized(s.sent, n.sent, e.sessionId, e.resource, e.leaseToken, Some(e.actionId));
      }
    }
    if n.gateway.session.Some? {
      forall r: Resource | n.gateway.resources[r].actionId.Some?
        ensures AuthorizedBy(n.sent, n.gateway.session.value, r,
                             n.gateway.resources[r].leaseToken, n.gateway.resources[r].actionId)
      {
        OwnerIsOldOrDelivered(s, step, r);
        var owner := n.gateway.resources[r];
        SentStaysAuthorized(s.sent, n.sent, n.gateway.session.value, r, owner.leaseToken, owner.actionId);
      }
    }
  }

  /** Nothing is taken back, and a fence that is raised knows every session used by then. */
  lemma NextOnlyGrows(s: System, step: Step)
    requires Enabled(s, step)
    ensures
      var n := Next(s, step);
      && s.sent <= n.sent && s.returned <= n.returned && s.written <= n.written && s.usedSessions <= n.usedSessions
      && (forall id :: id in s.fences ==> id in n.fences && n.fences[id] == s.fences[id])
      && (forall id :: id in n.fences && id !in s.fences ==>
            s.usedSessions <= n.fences[id].left + {n.fences[id].sessionId})
  {
  }

  lemma NextKeepsInvariant(s: System, step: Step)
    requires Enabled(s, step) && Invariant(s)
    ensures Invariant(Next(s, step))
  {
    NextKeepsFences(s, step);
    NextKeepsAcks(s, step);
    NextKeepsOwners(s, step);
  }

  lemma {:induction false} RunKeepsInvariant(s: System, steps: seq<Step>)
    requires Invariant(s) && Possible(s, steps)
    ensures Invariant(Run(s, steps))
    ensures s.written <= Run(s, steps).written && s.returned <= Run(s, steps).returned && s.sent <= Run(s, steps).sent
    decreases |steps|
  {
    if steps != [] {
      NextKeepsInvariant(s, steps[0]);
      NextOnlyGrows(s, steps[0]);
      RunKeepsInvariant(Next(s, steps[0]), steps[1..]);
    }
  }

  // ---- The end-to-end guarantee ----

  /**
   Once `neutralize(resource, f)` has returned without raising, nothing that carries a token up to `f` is
   written in that session again, whatever the executors send and however the network behaves.
   */
  lemma NothingStaleAfterNeutralize(
      before: seq<Step>, after: seq<Step>, id: string, sid: string, r: Resource, f: int, i: nat)
    requires Possible(START, before) && Possible(Run(START, before), after)
    requires ControlMessage(id, sid, NeutralizeControl(r, f)) in Run(START, before).sent
    requires id in Run(START, before).returned
    requires |Run(START, before).written| <= i < |Run(Run(START, before), after).written|
    ensures
      var e := Run(Run(START, before), after).written[i];
      e.sessionId == sid && e.resource == r ==> e.leaseToken > f
  {
    StartInvariant();
    RunKeepsInvariant(START, before);
    var mid := Run(START, before);
    var m := ControlMessage(id, sid, NeutralizeControl(r, f));
    assert Backed(mid, m) && FenceHolds(mid, mid.fences[id]);
    FenceOutlives(mid, after, mid.fences[id]);
  }

  lemma {:induction false} FenceOutlives(s: System, steps: seq<Step>, f: Fence)
    requires Possible(s, steps) && FenceHolds(s, f)
    ensures FenceHolds(Run(s, steps), f)
    decreases |steps|
  {
    if steps != [] {
      NextKeepsFence(s, steps[0], f);
      FenceOutlives(Next(s, steps[0]), steps[1..], f);
    }
  }

  /** Nothing is ever written that was not authorized, in its own session, for its own token and action. */
  lemma EveryWriteWasAuthorized(steps: seq<Step>, i: nat)
    requires Possible(START, steps) && i < |Run(START, steps).written|
    ensures
      var e := Run(START, steps).written[i];
      exists id :: ControlMessage(id, e.sessionId, AuthorizeControl(Lease(e.resource, e.leaseToken, Some(e.actionId))))
                     in Run(START, steps).sent
  {
    StartInvariant();
    RunKeepsInvariant(START, steps);
    var s := Run(START, steps);
    var e := s.written[i];
    assert WriteAuthorized(s, e);
    var m :| m in s.sent && Authorizes(m, e.sessionId, e.resource, e.leaseToken, Some(e.actionId));
    assert m == ControlMessage(m.id, e.sessionId, AuthorizeControl(Lease(e.resource, e.leaseToken, Some(e.actionId))));
  }

  // ---- Why session ids must be fresh ----

  /** Reopening a session id that was closed forgets its fences: the fenced lease is accepted again. */
  lemma ReusedSessionRevivesLease()
    ensures
      var lease := Lease(VoiceOutput, 1, Some("a"));
      var e := Envelope("s", "a", VoiceOutput, 1, 0, 1000, 0);
      var first := OpenSession(INITIAL, "s").gateway;
      var fenced := Neutralize(Authorize(first, "s", lease).gateway, "s", VoiceOutput, 2, true);
      var again := OpenSession(CloseSession(fenced.gateway, "s").gateway, "s").gateway;
      && fenced.decision.Accepted?
      && ApplyEnvelope(fenced.gateway, e, 0.0, 0.0, true).decision == Dropped(LeaseDrop)
      && ApplyEnvelope(Authorize(again, "s", lease).gateway, e, 0.0, 0.0, true).decision.Accepted?
  {
    var g := OpenSession(INITIAL, "s").gateway;
    assert g.resources[VoiceOutput] == UNUSED;
    var fenced :=
      Neutralize(Authorize(g, "s", Lease(VoiceOutput, 1, Some("a"))).gateway, "s", VoiceOutput, 2, true).gateway;
    assert fenced.resources[VoiceOutput] == ResourceState(2, None, -1, None);
  }
}
