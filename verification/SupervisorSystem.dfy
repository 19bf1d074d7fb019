/**
 The supervisor driving one resource through the two-machine output system. A lock-held section
 decides its effects at once; the effects then happen one by one, while the network, the gateway and
 every executor keep running. An output call blocks the section until its acknowledgement decides it.
 */
module SupervisorSystem {
  import opened Contracts
  import opened SupervisorModel
  import SupervisorRuns
  import OutputSystem

  /** A cancel signal that executors can see: how much was written by then, and the neutralize before it. */
  datatype Signal = Signal(mark: nat, fence: Option<string>)

  /** `authorized` remembers in which session each lease token was sent for authorization. */
  datatype World = World(
    resource: Resource,
    slot: Slot,
    done: nat,
    calling: Option<string>,
    lastFence: Option<string>,
    system: OutputSystem.System,
    signals: map<nat, Signal>,
    authorized: map<int, string>)

  datatype Step =
    | Supervise(event: SupervisorRuns.Event)
    | Call(id: string)
    | Return
    | Raise
    | Local
    | Environment(step: OutputSystem.Step)

  function ControlOf(r: Resource, e: Effect): OutputSystem.Control {
    match e
    case AuthorizeCall(token, actionId, _) => OutputSystem.AuthorizeControl(Lease(r, token, Some(actionId)))
    case _ => OutputSystem.NeutralizeControl(r, e.token)
  }

  predicate IsCall(e: Effect) {
    e.AuthorizeCall? || e.NeutralizeCall?
  }

  /** Nobody but the supervisor issues control messages for its resource. */
  predicate Foreign(r: Resource, step: OutputSystem.Step) {
    step.BeginControl? ==> OutputSystem.ResourceOf(step.control) != r
  }

  predicate Enabled(w: World, step: Step)
    requires w.done <= |w.slot.log|
  {
    match step
    case Supervise(event) => w.done == |w.slot.log| && SupervisorRuns.Proper(event)
    case Call(id) =>
      && w.done < |w.slot.log| && IsCall(w.slot.log[w.done]) && w.calling.None?
      && w.system.transport.session.Some? && id !in w.system.usedIds
    case Return =>
      && w.done < |w.slot.log| && IsCall(w.slot.log[w.done]) && w.slot.log[w.done].ok
      && w.calling.Some? && w.calling.value in w.system.returned
    case Raise => w.done < |w.slot.log| && IsCall(w.slot.log[w.done]) && !w.slot.log[w.done].ok
    case Local => w.done < |w.slot.log| && !IsCall(w.slot.log[w.done])
    case Environment(step) => OutputSystem.Enabled(w.system, step) && Foreign(w.resource, step)
  }

  function Next(w: World, step: Step): World
    requires w.done <= |w.slot.log| && Enabled(w, step)
  {
    match step
    case Supervise(event) => w.(slot := SupervisorRuns.Step(w.slot, event))
    case Call(id) =>
      var e, sid := w.slot.log[w.done], w.system.transport.session.value;
      w.(calling := Some(id),
         system := OutputSystem.Next(w.system, OutputSystem.BeginControl(id, sid, ControlOf(w.resource, e))),
         authorized := if e.AuthorizeCall? then w.authorized[e.token := sid] else w.authorized)
    case Return =>
      w.(done := w.done + 1, calling := None,
         lastFence := if w.slot.log[w.done].NeutralizeCall? then w.calling else None)
    case Raise => w.(done := w.done + 1, calling := None, lastFence := None)
    case Local =>
      var e := w.slot.log[w.done];
      if e.CancelSignal? then
        w.(done := w.done + 1, lastFence := None,
           signals := w.signals[e.token := Signal(|w.system.written|, w.lastFence)])
      else w.(done := w.done + 1, lastFence := None)
    case Environment(step) => w.(system := OutputSystem.Next(w.system, step))
  }

  function Start(r: Resource): World {
    World(r, IDLE, 0, None, None, OutputSystem.START, map[], map[])
  }

  // ---- The invariant ----

  /** `id` names a neutralize of `token` on this resource whose call has returned. */
  ghost predicate ReturnedFence(w: World, id: string, token: int) {
    && id in w.system.returned
    && exists m :: m in w.system.sent && NeutralizeOf(m, id, w.resource, token)
  }

  ghost predicate NeutralizeOf(m: OutputSystem.Message, id: string, r: Resource, token: int) {
    m.ControlMessage? && m.id == id && m.control == OutputSystem.NeutralizeControl(r, token)
  }

  /** The call in flight is the one the log asks for. */
  ghost predicate CallMatches(w: World)
    requires w.done <= |w.slot.log|
  {
    w.calling.Some? ==>
      && w.done < |w.slot.log| && IsCall(w.slot.log[w.done])
      && exists m :: m in w.system.sent && Carries(m, w.calling.value, w.resource, w.slot.log[w.done])
  }

  ghost predicate Carries(m: OutputSystem.Message, id: string, r: Resource, e: Effect)
    requires IsCall(e)
  {
    m.ControlMessage? && m.id == id && m.control == ControlOf(r, e)
  }

  /** The fence remembered is the last effect performed, exactly when that was a successful neutralize. */
  ghost predicate LastFenceMatches(w: World)
    requires w.done <= |w.slot.log|
  {
    var succeeded := w.done > 0 && w.slot.log[w.done - 1].NeutralizeCall? && w.slot.log[w.done - 1].ok;
    && (w.lastFence.Some? <==> succeeded)
    && (succeeded ==> ReturnedFence(w, w.lastFence.value, w.slot.log[w.done - 1].token))
  }

  /** A visible cancel signal is covered by a returned neutralize above its lease, unless that neutralize raised. */
  ghost predicate SignalCovered(w: World, t: nat)
    requires t in w.signals
  {
    && w.signals[t].mark <= |w.system.written|
    && (w.signals[t].fence.Some? ==>
          var id := w.signals[t].fence.value;
          exists f :: f > t && ReturnedFence(w, id, f)
            && id in w.system.fences && w.system.fences[id].mark <= w.signals[t].mark)
  }

  /** A cancel signal is uncovered only because the neutralize just before it raised. */
  ghost predicate SignalExplained(w: World, t: nat)
    requires t in w.signals && w.done <= |w.slot.log|
  {
    exists i :: 0 < i < w.done && w.slot.log[i] == CancelSignal(t) && w.slot.log[i - 1].NeutralizeCall?
      && (w.signals[t].fence.Some? <==> w.slot.log[i - 1].ok)
  }

  ghost predicate Tracked(w: World) {
    && w.done <= |w.slot.log|
    && CallMatches(w) && LastFenceMatches(w)
    && (forall t :: t in w.signals ==> SignalCovered(w, t) && SignalExplained(w, t))
    && Recorded(w)
  }

  /** Every cancel signal performed is remembered. */
  ghost predicate Recorded(w: World)
    requires w.done <= |w.slot.log|
  {
    forall i :: 0 <= i < w.done && w.slot.log[i].CancelSignal? ==> w.slot.log[i].token in w.signals
  }

  ghost predicate Invariant(w: World) {
    SupervisorRuns.Invariant(w.slot) && OutputSystem.Invariant(w.system) && Tracked(w)
  }

  /** What has returned, been sent, written or fenced is never taken back. */
  ghost predicate Grown(s: OutputSystem.System, n: OutputSystem.System) {
    && s.sent <= n.sent && s.returned <= n.returned && s.written <= n.written && s.usedSessions <= n.usedSessions
    && forall id :: id in s.fences ==> id in n.fences && n.fences[id] == s.fences[id]
  }

  lemma SystemOnlyGrows(s: OutputSystem.System, step: OutputSystem.Step)
    requires OutputSystem.Enabled(s, step) && OutputSystem.Invariant(s)
    ensures OutputSystem.Invariant(OutputSystem.Next(s, step)) && Grown(s, OutputSystem.Next(s, step))
  {
    OutputSystem.NextKeepsInvariant(s, step);
    OutputSystem.NextOnlyGrows(s, step);
  }

  lemma FenceStaysReturned(w: World, n: World, id: string, f: int)
    requires ReturnedFence(w, id, f) && n.resource == w.resource
    requires w.system.sent <= n.system.sent && w.system.returned <= n.system.returned
    ensures ReturnedFence(n, id, f)
  {
    var m :| m in w.system.sent && NeutralizeOf(m, id, w.resource, f);
    assert m in n.system.sent && NeutralizeOf(m, id, n.resource, f);
  }

  lemma SignalStaysExplained(w: World, n: World, t: nat)
    requires w.done <= |w.slot.log| && n.done <= |n.slot.log| && w.done <= n.done && w.slot.log <= n.slot.log
    requires t in w.signals && SignalExplained(w, t)
    requires t in n.signals && n.signals[t] == w.signals[t]
    ensures SignalExplained(n, t)
  {
    var i :| 0 < i < w.done && w.slot.log[i] == CancelSignal(t) && w.slot.log[i - 1].NeutralizeCall?
      && (w.signals[t].fence.Some? <==> w.slot.log[i - 1].ok);
    assert n.slot.log[i] == CancelSignal(t) && n.slot.log[i - 1] == w.slot.log[i - 1];
  }

  lemma SignalStaysCovered(w: World, n: World, t: nat)
    requires t in w.signals && SignalCovered(w, t)
    requires t in n.signals && n.signals[t] == w.signals[t] && n.resource == w.resource
    requires Grown(w.system, n.system)
    ensures SignalCovered(n, t)
  {
    if w.signals[t].fence.Some? {
      var id := w.signals[t].fence.value;
      var f :| f > t && ReturnedFence(w, id, f)
        && id in w.system.fences && w.system.fences[id].mark <= w.signals[t].mark;
      FenceStaysReturned(w, n, id, f);
    }
  }

  /** The signals stay covered and explained while the supervisor performs at most one more effect. */
  lemma SignalsStay(w: World, n: World)
    requires Tracked(w) && n.resource == w.resource && n.slot == w.slot && n.signals == w.signals
    requires w.done <= n.done <= |n.slot.log| && Grown(w.system, n.system)
    ensures forall t :: t in n.signals ==> SignalCovered(n, t) && SignalExplained(n, t)
  {
    forall t | t in n.signals ensures SignalCovered(n, t) && SignalExplained(n, t) {
      SignalStaysCovered(w, n, t);
      SignalStaysExplained(w, n, t);
    }
  }

  lemma GrowthKeepsTracked(w: World, n: World)
    requires Tracked(w) && n.resource == w.resource && n.slot == w.slot && n.signals == w.signals
    requires n.done == w.done && n.lastFence == w.lastFence && Grown(w.system, n.system)
    requires CallMatches(n)
    ensures Tracked(n)
  {
    SignalsStay(w, n);
    if w.lastFence.Some? {
      FenceStaysReturned(w, n, w.lastFence.value, w.slot.log[w.done - 1].token);
    }
  }

  lemma CallStaysMatched(w: World, n: World)
    requires w.done <= |w.slot.log| && CallMatches(w) && n == w.(system := n.system) && Grown(w.system, n.system)
    ensures CallMatches(n)
  {
    if w.calling.Some? {
      var m :| m in w.system.sent && Carries(m, w.calling.value, w.resource, w.slot.log[w.done]);
      assert m in n.system.sent && Carries(m, n.calling.value, n.resource, n.slot.log[n.done]);
    }
  }

  lemma EnvironmentKeepsInvariant(w: World, step: OutputSystem.Step)
    requires Invariant(w) && Enabled(w, Environment(step))
    ensures Invariant(Next(w, Environment(step)))
  {
    var n := Next(w, Environment(step));
    SystemOnlyGrows(w.system, step);
    CallStaysMatched(w, n);
    GrowthKeepsTracked(w, n);
  }

  lemma NewCallMatches(w: World, id: string)
    requires w.done <= |w.slot.log| && Enabled(w, Call(id))
    ensures CallMatches(Next(w, Call(id)))
  {
    var n, e := Next(w, Call(id)), w.slot.log[w.done];
    var m := OutputSystem.ControlMessage(id, w.system.transport.session.value, ControlOf(w.resource, e));
    assert m in n.system.sent && Carries(m, id, w.resource, e);
  }

  lemma CallKeepsInvariant(w: World, id: string)
    requires Invariant(w) && Enabled(w, Call(id))
    ensures Invariant(Next(w, Call(id)))
  {
    var sid := w.system.transport.session.value;
    var begin := OutputSystem.BeginControl(id, sid, ControlOf(w.resource, w.slot.log[w.done]));
    SystemOnlyGrows(w.system, begin);
    NewCallMatches(w, id);
    GrowthKeepsTracked(w, Next(w, Call(id)));
  }

  lemma ReturnedIsFenced(w: World, id: string, token: int)
    requires OutputSystem.Invariant(w.system) && ReturnedFence(w, id, token)
    ensures id in w.system.fences && w.system.fences[id].mark <= |w.system.written|
  {
    var m :| m in w.system.sent && NeutralizeOf(m, id, w.resource, token);
    assert OutputSystem.Backed(w.system, m);
    assert OutputSystem.FenceHolds(w.system, w.system.fences[id]);
  }

  lemma ReturnMakesLastFence(w: World)
    requires w.done <= |w.slot.log| && CallMatches(w) && Enabled(w, Return)
    ensures LastFenceMatches(Next(w, Return))
  {
    var n := Next(w, Return);
    if w.slot.log[w.done].NeutralizeCall? {
      var m :| m in w.system.sent && Carries(m, w.calling.value, w.resource, w.slot.log[w.done]);
      assert m in n.system.sent && NeutralizeOf(m, n.lastFence.value, n.resource, n.slot.log[n.done - 1].token);
    }
  }

  lemma CallEndKeepsTracked(w: World, step: Step)
    requires Tracked(w) && Enabled(w, step) && (step.Return? || step.Raise?)
    ensures Tracked(Next(w, step))
  {
    var n := Next(w, step);
    SignalsStay(w, n);
    if step.Return? { ReturnMakesLastFence(w); }
  }

  lemma QuietLocalKeepsTracked(w: World)
    requires Tracked(w) && Enabled(w, Local) && !w.slot.log[w.done].CancelSignal?
    ensures Tracked(Next(w, Local))
  {
    SignalsStay(w, Next(w, Local));
  }

  lemma OldSignalStays(w: World, t: nat)
    requires Tracked(w) && Enabled(w, Local) && w.slot.log[w.done].CancelSignal?
    requires t in w.signals && t != w.slot.log[w.done].token
    ensures SignalCovered(Next(w, Local), t) && SignalExplained(Next(w, Local), t)
  {
    SignalStaysCovered(w, Next(w, Local), t);
    SignalStaysExplained(w, Next(w, Local), t);
  }

  lemma SignalKeepsTheRest(w: World)
    requires w.done <= |w.slot.log| && CallMatches(w) && LastFenceMatches(w) && Recorded(w)
    requires Enabled(w, Local) && w.slot.log[w.done].CancelSignal?
    ensures CallMatches(Next(w, Local)) && LastFenceMatches(Next(w, Local)) && Recorded(Next(w, Local))
  {
  }

  lemma AllSignalsStay(w: World)
    requires Tracked(w) && Enabled(w, Local) && w.slot.log[w.done].CancelSignal? && NewSignalCovered(w)
    ensures forall t :: t in Next(w, Local).signals ==>
              SignalCovered(Next(w, Local), t) && SignalExplained(Next(w, Local), t)
  {
    var n := Next(w, Local);
    forall t | t in n.signals ensures SignalCovered(n, t) && SignalExplained(n, t) {
      if t != w.slot.log[w.done].token { OldSignalStays(w, t); }
    }
  }

  lemma SignalKeepsTracked(w: World)
    requires Tracked(w) && Enabled(w, Local) && w.slot.log[w.done].CancelSignal? && NewSignalCovered(w)
    ensures Tracked(Next(w, Local))
  {
    SignalKeepsTheRest(w);
    AllSignalsStay(w);
  }

  ghost predicate NewSignalCovered(w: World)
    requires w.done <= |w.slot.log| && Enabled(w, Local) && w.slot.log[w.done].CancelSignal?
  {
    SignalCovered(Next(w, Local), w.slot.log[w.done].token) && SignalExplained(Next(w, Local), w.slot.log[w.done].token)
  }

  lemma NewSignalIsCovered(w: World)
    requires Invariant(w) && Enabled(w, Local) && w.slot.log[w.done].CancelSignal?
    ensures NewSignalCovered(w)
  {
    var n := Next(w, Local);
    var t := w.slot.log[w.done].token;
    assert SupervisorRuns.IsFence(w.slot.log[w.done - 1], t);
    assert n.slot.log[w.done] == CancelSignal(t) && n.slot.log[w.done - 1].NeutralizeCall?;
    if w.lastFence.Some? {
      var f := w.slot.log[w.done - 1].token;
      ReturnedIsFenced(w, w.lastFence.value, f);
      FenceStaysReturned(w, n, w.lastFence.value, f);
    }
  }

  /** Tracking only looks at the log, and only up to the effects performed. */
  lemma LongerLogKeepsTracked(w: World, slot: Slot)
    requires Tracked(w) && w.done == |w.slot.log| && w.slot.log <= slot.log
    ensures Tracked(w.(slot := slot))
  {
    var n := w.(slot := slot);
    forall t | t in n.signals ensures SignalCovered(n, t) && SignalExplained(n, t) {
      SignalStaysCovered(w, n, t);
      SignalStaysExplained(w, n, t);
    }
    if w.lastFence.Some? {
      FenceStaysReturned(w, n, w.lastFence.value, w.slot.log[w.done - 1].token);
    }
  }

  lemma SuperviseKeepsInvariant(w: World, event: SupervisorRuns.Event)
    requires Invariant(w) && Enabled(w, Supervise(event))
    ensures Invariant(Next(w, Supervise(event)))
  {
    SupervisorRuns.StepKeepsInvariant(w.slot, event);
    LongerLogKeepsTracked(w, SupervisorRuns.Step(w.slot, event));
  }

  lemma NextKeepsInvariant(w: World, step: Step)
    requires Invariant(w) && Enabled(w, step)
    ensures Invariant(Next(w, step))
  {
    match step
    case Supervise(event) => SuperviseKeepsInvariant(w, event);
    case Call(id) => CallKeepsInvariant(w, id);
    case Return => CallEndKeepsTracked(w, step);
    case Raise => CallEndKeepsTracked(w, step);
    case Local =>
      if w.slot.log[w.done].CancelSignal? {
        NewSignalIsCovered(w);
        SignalKeepsTracked(w);
      } else {
        QuietLocalKeepsTracked(w);
      }
    case Environment(s) => EnvironmentKeepsInvariant(w, s);
  }

  /** Every interleaving that respects the enabling conditions. */
  ghost predicate Trace(ws: seq<World>, steps: seq<Step>) {
    && |ws| == |steps| + 1
    && ws[0] == Start(ws[0].resource)
    && forall i :: 0 <= i < |steps| ==>
      ws[i].done <= |ws[i].slot.log| && Enabled(ws[i], steps[i]) && ws[i + 1] == Next(ws[i], steps[i])
  }

  lemma {:induction false} TraceKeepsInvariant(ws: seq<World>, steps: seq<Step>, i: nat)
    requires Trace(ws, steps) && i < |ws|
    ensures Invariant(ws[i])
    decreases i
  {
    if i == 0 {
      SupervisorRuns.IdleIsSound();
      OutputSystem.StartInvariant();
    } else {
      TraceKeepsInvariant(ws, steps, i - 1);
      NextKeepsInvariant(ws[i - 1], steps[i - 1]);
    }
  }
}
