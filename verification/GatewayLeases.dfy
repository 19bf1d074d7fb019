/** What an owner can rely on while it keeps its lease, and when the watchdog takes the lease away. */
module GatewayLeases {
  import opened Contracts
  import opened GatewayModel
  import opened GatewayRuns

  // ---- The watchdog ----

  /** Nobody takes the lease `token` over, and no further envelope is written for its resource. */
  predicate LeavesAlone(g: Gateway, e: Event, r: Resource, token: int) {
    match e
    case AuthorizeEvent(_, lease) => lease.resource != r || lease.token <= token
    case NeutralizeEvent(_, other, _, _) => other != r
    case DataEvent(envelope, _, _, _) => envelope.resource != r || Written(g, e).None?
    case PollEvent(_) => true
  }

  predicate LeftAlone(g: Gateway, es: seq<Event>, r: Resource, token: int)
    decreases |es|
  {
    es != [] ==> LeavesAlone(g, es[0], r, token) && LeftAlone(Step(g, es[0]).gateway, es[1..], r, token)
  }

  predicate PollsBefore(es: seq<Event>, due: real) {
    forall e :: e in es && e.PollEvent? ==> e.now < due
  }

  /** The owner is still there, due at this moment, or it has been revoked. */
  predicate DueOrRevoked(s: ResourceState, token: int, id: string, due: real) {
    s.leaseToken == token && (s.actionId.None? || (s.actionId == Some(id) && s.expires == Some(due)))
  }

  lemma StepKeepsDue(g: Gateway, e: Event, r: Resource, token: int, id: string, due: real)
    requires DueOrRevoked(g.resources[r], token, id, due) && LeavesAlone(g, e, r, token)
    ensures DueOrRevoked(Step(g, e).gateway.resources[r], token, id, due)
    ensures g.resources[r].actionId.Some? && (e.PollEvent? ==> e.now < due) ==>
              Step(g, e).gateway.resources[r].actionId.Some?
  {
  }

  lemma {:induction false} RunKeepsDue(g: Gateway, es: seq<Event>, r: Resource, token: int, id: string, due: real)
    requires DueOrRevoked(g.resources[r], token, id, due) && LeftAlone(g, es, r, token)
    ensures DueOrRevoked(Run(g, es).resources[r], token, id, due)
    ensures g.resources[r].actionId.Some? && PollsBefore(es, due) ==> Run(g, es).resources[r].actionId.Some?
    decreases |es|
  {
    if es != [] {
      StepKeepsDue(g, es[0], r, token, id, due);
      RunKeepsDue(Step(g, es[0]).gateway, es[1..], r, token, id, due);
    }
  }

  /**
   An envelope was written and nothing was written for its resource since. From the end of its time to live on, a poll
   revokes the owner, whatever else happened: the lease is fenced and nothing under it is written again.
   */
  lemma SilentOwnerIsRevoked(
      g: Gateway, e: Envelope, received: real, at: real, es: seq<Event>, now: real, later: seq<Event>)
    requires Written(g, DataEvent(e, received, at, true)).Some?
    requires LeftAlone(Step(g, DataEvent(e, received, at, true)).gateway, es, e.resource, e.leaseToken)
    requires now >= received + e.ttlMs as real / 1000.0
    ensures
      var polled := PollExpired(Run(Step(g, DataEvent(e, received, at, true)).gateway, es), now);
      && Fenced(polled, e.resource, e.leaseToken)
      && forall w :: w in WrittenLog(polled, later) && w.resource == e.resource ==> w.leaseToken > e.leaseToken
  {
    var first := Step(g, DataEvent(e, received, at, true)).gateway;
    RunKeepsDue(first, es, e.resource, e.leaseToken, e.actionId, received + e.ttlMs as real / 1000.0);
    FencedForever(PollExpired(Run(first, es), now), e.resource, e.leaseToken, later);
  }

  /** Before the end of its time to live no poll revokes it. */
  lemma PunctualOwnerIsKept(g: Gateway, e: Envelope, received: real, at: real, es: seq<Event>, now: real)
    requires Written(g, DataEvent(e, received, at, true)).Some?
    requires LeftAlone(Step(g, DataEvent(e, received, at, true)).gateway, es, e.resource, e.leaseToken)
    requires now < received + e.ttlMs as real / 1000.0 && PollsBefore(es, received + e.ttlMs as real / 1000.0)
    ensures
      var s := PollExpired(Run(Step(g, DataEvent(e, received, at, true)).gateway, es), now).resources[e.resource];
      s.leaseToken == e.leaseToken && s.actionId == Some(e.actionId)
  {
    var first := Step(g, DataEvent(e, received, at, true)).gateway;
    RunKeepsDue(first, es, e.resource, e.leaseToken, e.actionId, received + e.ttlMs as real / 1000.0);
  }

  // ---- Delivery ----

  /** When the watchdog may revoke the owner of `r` after one more event, judged by the envelope written last. */
  function Due(g: Gateway, e: Event, r: Resource, due: Option<real>): Option<real> {
    match Written(g, e)
    case Some(w) => if w.resource == r then Some(e.received + w.ttlMs as real / 1000.0) else due
    case None => due
  }

  /** The owner keeps writing in time, and nobody takes its lease over. */
  predicate Kept(g: Gateway, es: seq<Event>, r: Resource, token: int, due: Option<real>)
    decreases |es|
  {
    es != [] ==>
      && (match es[0]
          case AuthorizeEvent(_, lease) => lease.resource != r || lease.token <= token
          case NeutralizeEvent(_, other, _, _) => other != r
          case DataEvent(_, _, _, _) => true
          case PollEvent(now) => due.None? || now < due.value)
      && Kept(Step(g, es[0]).gateway, es[1..], r, token, Due(g, es[0], r, due))
  }

  /** Above everything written for `r`, and above `last`. */
  ghost predicate Tops(sequence: int, last: int, log: seq<Envelope>, r: Resource) {
    last < sequence && forall w :: w in log && w.resource == r ==> w.sequence < sequence
  }

  /** The last sequence number written is exactly the highest of the run. */
  ghost predicate TopIs(top: int, last: int, log: seq<Envelope>, r: Resource) {
    forall sequence: int :: top < sequence <==> Tops(sequence, last, log, r)
  }

  lemma StepKeepsOwner(g: Gateway, e: Event, r: Resource, token: int, id: string, last: int, due: Option<real>)
    requires g.resources[r] == ResourceState(token, Some(id), last, due)
    requires Kept(g, [e], r, token, due)
    ensures
      var n := Step(g, e).gateway.resources[r];
      match Written(g, e)
      case Some(w) =>
        if w.resource == r then n == ResourceState(token, Some(id), w.sequence, Due(g, e, r, due)) && last < w.sequence
        else n == g.resources[r]
      case None => n == g.resources[r]
  {
  }

  lemma {:induction false} RunKeepsOwner(
      g: Gateway, es: seq<Event>, r: Resource, token: int, id: string, last: int, due: Option<real>)
    requires g.resources[r] == ResourceState(token, Some(id), last, due) && Kept(g, es, r, token, due)
    ensures
      var n := Run(g, es).resources[r];
      && n.leaseToken == token && n.actionId == Some(id)
      && TopIs(n.lastSequence, last, WrittenLog(g, es), r)
    decreases |es|
  {
    if es != [] {
      var next := Step(g, es[0]).gateway;
      StepKeepsOwner(g, es[0], r, token, id, last, due);
      RunKeepsOwner(next, es[1..], r, token, id, next.resources[r].lastSequence, Due(g, es[0], r, due));
      if Written(g, es[0]).Some? {
        OneMoreWritten(
          Run(g, es).resources[r].lastSequence, last, next.resources[r].lastSequence,
          es[0].envelope, WrittenLog(next, es[1..]), r);
      }
    }
  }

  lemma OneMoreWritten(top: int, last: int, after: int, w: Envelope, log: seq<Envelope>, r: Resource)
    requires TopIs(top, after, log, r)
    requires if w.resource == r then last < after == w.sequence else after == last
    ensures TopIs(top, last, [w] + log, r)
  {
    forall sequence: int ensures Tops(sequence, after, log, r) <==> Tops(sequence, last, [w] + log, r) {
      if Tops(sequence, last, [w] + log, r) {
        assert w in [w] + log;
        assert forall x :: x in log ==> x in [w] + log;
      }
    }
  }

  /**
   Once a lease above all before it is authorized, and as long as nobody takes it over and the watchdog finds it in
   time, an envelope for its resource is written exactly when it carries this lease and action, is well formed and
   within its time to live, its sequence number is above every one written since, and the device takes it.
   */
  lemma DeliveredIff(g: Gateway, lease: Lease, sid: string, es: seq<Event>,
                     e: Envelope, received: real, now: real, sinkOk: bool)
    requires g.session == Some(sid) && lease.actionId.Some? && lease.token > 0
    requires lease.token > g.resources[lease.resource].leaseToken
    requires Kept(Authorize(g, sid, lease).gateway, es, lease.resource, lease.token, None)
    requires e.sessionId == sid && e.resource == lease.resource
    ensures
      var owned := Authorize(g, sid, lease).gateway;
      ApplyEnvelope(Run(owned, es), e, received, now, sinkOk).decision.Accepted? <==>
        && e.leaseToken == lease.token && Some(e.actionId) == lease.actionId && e.actionId != ""
        && 0 <= e.sequence && 0 < e.ttlMs && received <= now <= received + e.ttlMs as real / 1000.0 && sinkOk
        && forall w :: w in WrittenLog(owned, es) && w.resource == e.resource ==> w.sequence < e.sequence
  {
    var owned := Authorize(g, sid, lease).gateway;
    RunKeepsOwner(owned, es, lease.resource, lease.token, lease.actionId.value, -1, None);
    RunKeepsSession(owned, es);
    var written := WrittenLog(owned, es);
    assert Tops(e.sequence, -1, written, e.resource) <==>
           0 <= e.sequence && forall w :: w in written && w.resource == e.resource ==> w.sequence < e.sequence;
  }

  /** Authorizing the owner again, as a repeated message does, is accepted and changes nothing. */
  lemma RepeatedAuthorizationIsAccepted(g: Gateway, lease: Lease, sid: string, es: seq<Event>)
    requires g.session == Some(sid) && lease.actionId.Some? && lease.token > 0
    requires lease.token > g.resources[lease.resource].leaseToken
    requires Kept(Authorize(g, sid, lease).gateway, es, lease.resource, lease.token, None)
    ensures
      var s := Run(Authorize(g, sid, lease).gateway, es);
      Authorize(s, sid, lease) == Outcome(s, Accepted)
  {
    var owned := Authorize(g, sid, lease).gateway;
    RunKeepsOwner(owned, es, lease.resource, lease.token, lease.actionId.value, -1, None);
    RunKeepsSession(owned, es);
  }

  // ---- What is turned away ----

  /** A lease is taken when its token is the highest yet, or when it is the current lease itself; it is current then. */
  lemma AuthorizedIff(g: Gateway, sid: string, lease: Lease)
    ensures
      var s := g.resources[lease.resource];
      var known := g.session == Some(sid);
      var valid := lease.actionId.Some? && lease.token > 0;
      var higher := lease.token > s.leaseToken || lease == Lease(lease.resource, s.leaseToken, s.actionId);
      var outcome := Authorize(g, sid, lease);
      && (outcome.decision.Accepted? <==> known && valid && higher)
      && (outcome.decision.Dropped? ==>
            outcome.decision.reason == if !known then SessionDrop else if !valid then InvalidDrop else LeaseDrop)
      && (outcome.decision.Accepted? ==>
            var n := outcome.gateway.resources[lease.resource];
            n.leaseToken == lease.token && n.actionId == lease.actionId)
  {
  }

  function Reason(d: Decision): multiset<DropReason> {
    match d
    case Accepted => multiset{}
    case Dropped(why) => multiset{why}
  }

  /** The reasons for which a run's messages are turned away. */
  function TurnedAway(g: Gateway, es: seq<Event>): multiset<DropReason>
    decreases |es|
  {
    if es == [] then multiset{}
    else
      var outcome := Step(g, es[0]);
      Reason(outcome.decision) + TurnedAway(outcome.gateway, es[1..])
  }

  lemma OneDropIsCounted(g: Gateway, e: Event)
    ensures Step(g, e).gateway.drops == g.drops + Reason(Step(g, e).decision)
  {
  }

  /** Every message that is turned away is counted once, under its reason; nothing else is. */
  lemma {:induction false} DropsAreCounted(g: Gateway, es: seq<Event>)
    ensures Run(g, es).drops == g.drops + TurnedAway(g, es)
    decreases |es|
  {
    if es != [] {
      OneDropIsCounted(g, es[0]);
      DropsAreCounted(Step(g, es[0]).gateway, es[1..]);
    }
  }

  // ---- Sessions ----

  /** Traffic, and everything that opens or ends a session. */
  datatype LifeEvent =
    | Traffic(event: Event)
    | OpenEvent(sessionId: string)
    | ClaimEvent(sessionId: string)
    | ReleaseEvent(sessionId: string)
    | CloseEvent(sessionId: string)

  function Live(g: Gateway, e: LifeEvent): Gateway {
    match e
    case Traffic(event) => Step(g, event).gateway
    case OpenEvent(sid) => OpenSession(g, sid).gateway
    case ClaimEvent(sid) => ClaimExclusive(g, sid).gateway
    case ReleaseEvent(sid) => ReleaseExclusive(g, sid).gateway
    case CloseEvent(sid) => CloseSession(g, sid).gateway
  }

  function Lived(g: Gateway, es: seq<LifeEvent>): Gateway
    decreases |es|
  {
    if es == [] then g else Lived(Live(g, es[0]), es[1..])
  }

  /** Without a session nothing is owned; exclusive use is use by the open session. */
  ghost predicate Orderly(g: Gateway) {
    && (g.session.None? ==> !AnyOwned(g))
    && (g.exclusive.Some? ==> g.session == g.exclusive && g.exclusive != Some(""))
  }

  lemma TrafficKeepsOrder(g: Gateway, e: Event)
    requires Orderly(g)
    ensures Orderly(Step(g, e).gateway)
  {
    if g.session.None? { assert forall r: Resource :: g.resources[r].actionId.None?; }
  }

  /** In every run a gateway without a session owns no output, and only the open session can have exclusive use. */
  lemma {:induction false} SessionlessGatewayOwnsNothing(g: Gateway, es: seq<LifeEvent>)
    requires Orderly(g)
    ensures Orderly(Lived(g, es))
    decreases |es|
  {
    if es != [] {
      if es[0].Traffic? { TrafficKeepsOrder(g, es[0].event); }
      SessionlessGatewayOwnsNothing(Live(g, es[0]), es[1..]);
    }
  }

  /** A session that is opened anew, by the bridge or for calibration, can authorize any positive token. */
  lemma NewSessionStartsOver(g: Gateway, sid: string, r: Resource)
    requires sid != "" && g.session != Some(sid)
    requires g.exclusive.None? || g.exclusive == Some("") || g.exclusive == Some(sid)
    ensures
      var started := OpenSession(g, sid).gateway;
      started.session == Some(sid) && started.resources[r].leaseToken == 0 && started.resources[r].actionId.None?
    ensures g.session.None? ==>
      var claimed := ClaimExclusive(g, sid).gateway;
      claimed.session == claimed.exclusive == Some(sid) && claimed.resources[r].leaseToken == 0
  {
  }

  lemma {:induction false} SilentWithoutASession(g: Gateway, es: seq<Event>)
    requires g.session.None?
    ensures WrittenLog(g, es) == [] && Run(g, es).session.None?
    decreases |es|
  {
    if es != [] { SilentWithoutASession(Step(g, es[0]).gateway, es[1..]); }
  }

  /** A closed session owns nothing but its tokens, and nothing is written until another is opened, whatever arrives. */
  lemma ClosedSessionIsSilent(g: Gateway, sid: string, es: seq<Event>)
    requires g.session == Some(sid)
    ensures
      var closed := CloseSession(g, sid).gateway;
      && closed.session.None? && closed.exclusive.None? && !AnyOwned(closed) && WrittenLog(closed, es) == []
      && forall r: Resource :: closed.resources[r].leaseToken == g.resources[r].leaseToken
  {
    SilentWithoutASession(CloseSession(g, sid).gateway, es);
  }
}
