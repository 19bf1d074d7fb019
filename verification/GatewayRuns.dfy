/** What the gateway guarantees over every run inside one session opening. */
module GatewayRuns {
  import opened Contracts
  import opened GatewayModel

  /** Anything that can reach the gateway while a session stays open, in any order. */
  datatype Event =
    | AuthorizeEvent(sessionId: string, lease: Lease)
    | NeutralizeEvent(sessionId: string, resource: Resource, token: int, sinkOk: bool)
    | DataEvent(envelope: Envelope, received: real, now: real, sinkOk: bool)
    | PollEvent(now: real)

  function Step(g: Gateway, e: Event): Outcome {
    match e
    case AuthorizeEvent(sid, lease) => Authorize(g, sid, lease)
    case NeutralizeEvent(sid, r, token, sinkOk) => Neutralize(g, sid, r, token, sinkOk)
    case DataEvent(envelope, received, now, sinkOk) => ApplyEnvelope(g, envelope, received, now, sinkOk)
    case PollEvent(now) => Outcome(PollExpired(g, now), Accepted)
  }

  function Run(g: Gateway, es: seq<Event>): Gateway
    decreases |es|
  {
    if es == [] then g else Run(Step(g, es[0]).gateway, es[1..])
  }

  /** The envelope written to a device by one step, if any. */
  function Written(g: Gateway, e: Event): Option<Envelope> {
    if e.DataEvent? && Step(g, e).decision.Accepted? then Some(e.envelope) else None
  }

  /** Every envelope written to a device during a run, in order. */
  function WrittenLog(g: Gateway, es: seq<Event>): seq<Envelope>
    decreases |es|
  {
    if es == [] then []
    else
      var later := WrittenLog(Step(g, es[0]).gateway, es[1..]);
      match Written(g, es[0])
      case None => later
      case Some(e) => [e] + later
  }

  /** No envelope with a token up to `f` can pass: the token is beyond `f`, or it is `f` and nobody owns it. */
  predicate Fenced(g: Gateway, r: Resource, f: int) {
    g.resources[r].leaseToken > f || (g.resources[r].leaseToken == f && g.resources[r].actionId.None?)
  }

  /** Lexicographic order on (lease token, sequence); an unchanged token keeps its owner. */
  predicate Before(a: Envelope, b: Envelope) {
    || a.leaseToken < b.leaseToken
    || (a.leaseToken == b.leaseToken && a.sequence < b.sequence && a.actionId == b.actionId)
  }

  /** An envelope that may still be written from a resource state. */
  predicate Beyond(s: ResourceState, e: Envelope) {
    || s.leaseToken < e.leaseToken
    || (s.leaseToken == e.leaseToken && s.lastSequence < e.sequence && s.actionId == Some(e.actionId))
  }

  /** A resource state only moves up: what is beyond it afterwards was beyond it before. */
  lemma StepOnlyRaises(g: Gateway, e: Event, later: Envelope)
    requires Beyond(Step(g, e).gateway.resources[later.resource], later)
    ensures Beyond(g.resources[later.resource], later)
  {
  }

  lemma {:induction false} WrittenIsBeyondTheState(g: Gateway, es: seq<Event>, i: nat)
    requires i < |WrittenLog(g, es)|
    ensures var e := WrittenLog(g, es)[i]; Beyond(g.resources[e.resource], e)
    decreases |es|
  {
    var next := Step(g, es[0]).gateway;
    if Written(g, es[0]).None? {
      WrittenIsBeyondTheState(next, es[1..], i);
      StepOnlyRaises(g, es[0], WrittenLog(next, es[1..])[i]);
    } else if i > 0 {
      WrittenIsBeyondTheState(next, es[1..], i - 1);
      StepOnlyRaises(g, es[0], WrittenLog(next, es[1..])[i - 1]);
    }
  }

  predicate Ordered(log: seq<Envelope>) {
    forall i, j :: 0 <= i < j < |log| && log[i].resource == log[j].resource ==> Before(log[i], log[j])
  }

  lemma OrderedWithFirst(first: Envelope, log: seq<Envelope>)
    requires Ordered(log)
    requires forall k :: 0 <= k < |log| && log[k].resource == first.resource ==> Before(first, log[k])
    ensures Ordered([first] + log)
  {
  }

  lemma WrittenIsBeforeWhatFollows(g: Gateway, e: Event, later: Envelope)
    requires Written(g, e).Some? && later.resource == e.envelope.resource
    requires Beyond(Step(g, e).gateway.resources[later.resource], later)
    ensures Before(e.envelope, later)
  {
  }

  lemma {:induction false} LogIsOrdered(g: Gateway, es: seq<Event>)
    ensures Ordered(WrittenLog(g, es))
    decreases |es|
  {
    if es != [] {
      var next, rest := Step(g, es[0]).gateway, es[1..];
      var log := WrittenLog(next, rest);
      LogIsOrdered(next, rest);
      if Written(g, es[0]).Some? {
        forall k | 0 <= k < |log| && log[k].resource == es[0].envelope.resource
          ensures Before(es[0].envelope, log[k])
        {
          WrittenIsBeyondTheState(next, rest, k);
          WrittenIsBeforeWhatFollows(g, es[0], log[k]);
        }
        OrderedWithFirst(es[0].envelope, log);
      }
    }
  }

  /**
   Whatever is delivered, and in whatever order, the envelopes written to one resource are
   strictly increasing in (lease token, sequence), and one token never carries two action ids.
   */
  lemma WrittenEnvelopesIncrease(g: Gateway, es: seq<Event>, i: nat, j: nat)
    requires i < j < |WrittenLog(g, es)|
    requires WrittenLog(g, es)[i].resource == WrittenLog(g, es)[j].resource
    ensures Before(WrittenLog(g, es)[i], WrittenLog(g, es)[j])
    ensures WrittenLog(g, es)[i].leaseToken == WrittenLog(g, es)[j].leaseToken ==>
              WrittenLog(g, es)[i].actionId == WrittenLog(g, es)[j].actionId
  {
    LogIsOrdered(g, es);
  }

  /** A fence survives every later step, and nothing at or below it is written any more. */
  lemma {:induction false} FencedForever(g: Gateway, r: Resource, f: int, es: seq<Event>)
    requires Fenced(g, r, f)
    ensures Fenced(Run(g, es), r, f)
    ensures forall e :: e in WrittenLog(g, es) && e.resource == r ==> e.leaseToken > f
    decreases |es|
  {
    if es != [] {
      FencedForever(Step(g, es[0]).gateway, r, f, es[1..]);
    }
  }

  /** Processing a neutralize in its own session fences its token, even when it is refused or the sink raises. */
  lemma NeutralizeFences(g: Gateway, sid: string, r: Resource, f: int, sinkOk: bool)
    requires g.session == Some(sid)
    ensures Fenced(Neutralize(g, sid, r, f, sinkOk).gateway, r, f)
    ensures Neutralize(g, sid, r, f, sinkOk).decision.Accepted? <==> sinkOk && f >= g.resources[r].leaseToken
  {
  }

  /** A neutralized token is never revived, whatever follows. */
  lemma NeutralizedNeverRevived(g: Gateway, sid: string, r: Resource, f: int, sinkOk: bool, es: seq<Event>)
    requires g.session == Some(sid)
    ensures forall e :: e in WrittenLog(Neutralize(g, sid, r, f, sinkOk).gateway, es) && e.resource == r ==>
              e.leaseToken > f
  {
    NeutralizeFences(g, sid, r, f, sinkOk);
    FencedForever(Neutralize(g, sid, r, f, sinkOk).gateway, r, f, es);
  }

  /** Nor is a token whose owner missed its deadline. */
  lemma ExpiredNeverRevived(g: Gateway, now: real, r: Resource, es: seq<Event>)
    requires Overdue(g.resources[r], now)
    ensures forall e :: e in WrittenLog(PollExpired(g, now), es) && e.resource == r ==>
                          e.leaseToken > g.resources[r].leaseToken
  {
    FencedForever(PollExpired(g, now), r, g.resources[r].leaseToken, es);
  }

  lemma {:induction false} RunKeepsSession(g: Gateway, es: seq<Event>)
    ensures Run(g, es).session == g.session
    decreases |es|
  {
    if es != [] {
      RunKeepsSession(Step(g, es[0]).gateway, es[1..]);
    }
  }

  /**
   The start/halt race: a stream's unlocked authorization for `lease` and the unlocked neutralize of
   `f` may be processed in either order, with any traffic around them. After both, the gateway token is
   at least `f`, and nothing issued under the lease is written again.
   */
  lemma AuthorizeNeutralizeRace(
      g: Gateway, sid: string, lease: Lease, f: int, sinkOk: bool, neutralizeFirst: bool,
      before: seq<Event>, between: seq<Event>, after: seq<Event>)
    requires g.session == Some(sid) && lease.token < f
    ensures
      var authorize := AuthorizeEvent(sid, lease);
      var neutralize := NeutralizeEvent(sid, lease.resource, f, sinkOk);
      var first := if neutralizeFirst then neutralize else authorize;
      var second := if neutralizeFirst then authorize else neutralize;
      var settled := Step(Run(Step(Run(g, before), first).gateway, between), second).gateway;
      && Run(settled, after).resources[lease.resource].leaseToken >= f
      && forall e :: e in WrittenLog(settled, after) && e.resource == lease.resource ==> e.leaseToken > lease.token
  {
    var r := lease.resource;
    var authorize := AuthorizeEvent(sid, lease);
    var neutralize := NeutralizeEvent(sid, r, f, sinkOk);
    var first := if neutralizeFirst then neutralize else authorize;
    var second := if neutralizeFirst then authorize else neutralize;
    var start := Run(g, before);
    RunKeepsSession(g, before);
    var mid := Run(Step(start, first).gateway, between);
    RunKeepsSession(Step(start, first).gateway, between);
    if neutralizeFirst {
      NeutralizeFences(start, sid, r, f, sinkOk);
      FencedForever(Step(start, first).gateway, r, f, between);
      assert Run(mid, [second]) == Step(mid, second).gateway;
      FencedForever(mid, r, f, [second]);
    } else {
      NeutralizeFences(mid, sid, r, f, sinkOk);
    }
    FencedForever(Step(mid, second).gateway, r, f, after);
  }
}
