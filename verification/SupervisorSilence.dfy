/** What a cancelled lease can still do: nothing reaches its device, in any session, unless the neutralize raised. */
module SupervisorSilence {
  import opened Contracts
  import opened SupervisorModel
  import opened SupervisorSystem
  import OutputSystem
  import SupervisorRuns

  // ---- Where leases were authorized ----

  predicate IsAuthorize(m: OutputSystem.Message, r: Resource) {
    m.ControlMessage? && m.control.AuthorizeControl? && m.control.lease.resource == r
  }

  /** Every authorization on this resource was sent in the one session remembered for its token. */
  ghost predicate SessionsAgree(w: World) {
    forall m :: m in w.system.sent && IsAuthorize(m, w.resource) ==>
      m.control.lease.token in w.authorized && w.authorized[m.control.lease.token] == m.sessionId
  }

  /** Only tokens the log asked for are remembered. */
  ghost predicate KeysAreCalls(w: World)
    requires w.done <= |w.slot.log|
  {
    forall t :: t in w.authorized ==> exists i :: CalledAt(w, i, t)
  }

  ghost predicate CalledAt(w: World, i: int, t: int)
    requires w.done <= |w.slot.log|
  {
    && 0 <= i < |w.slot.log| && w.slot.log[i].AuthorizeCall? && w.slot.log[i].token == t
    && (i < w.done || (i == w.done && w.calling.Some?))
  }

  /** The authorization of this lease has returned. */
  ghost predicate Launched(w: World, t: nat)
    requires w.done <= |w.slot.log|
  {
    exists j :: 0 <= j < w.done && SupervisorRuns.LaunchedAt(w.slot.log, j, t)
  }

  /** A lease whose authorization returned was authorized in a session the gateway has opened. */
  ghost predicate LaunchesUsed(w: World)
    requires w.done <= |w.slot.log|
  {
    forall t: nat :: Launched(w, t) ==> t in w.authorized && w.authorized[t] in w.system.usedSessions
  }

  /** The sessions a fence covers: the one it was raised in, and those already left. */
  function Covered(f: OutputSystem.Fence): set<string> {
    f.left + {f.sessionId}
  }

  ghost predicate Covers(w: World, id: string, t: int) {
    t in w.authorized && id in w.system.fences && w.authorized[t] in Covered(w.system.fences[id])
  }

  /** Once raised, the fence of this neutralize covers every lease launched before it. */
  ghost predicate CoversLaunches(w: World, id: string)
    requires w.done <= |w.slot.log|
  {
    id in w.system.fences ==> forall t: nat :: Launched(w, t) ==> Covers(w, id, t)
  }

  ghost predicate FencesCover(w: World)
    requires w.done <= |w.slot.log|
  {
    && (w.calling.Some? && w.done < |w.slot.log| && w.slot.log[w.done].NeutralizeCall? ==>
          CoversLaunches(w, w.calling.value))
    && (w.lastFence.Some? ==> CoversLaunches(w, w.lastFence.value))
    && (forall t :: t in w.signals && w.signals[t].fence.Some? ==> Covers(w, w.signals[t].fence.value, t))
  }

  ghost predicate Placed(w: World) {
    w.done <= |w.slot.log| && SessionsAgree(w) && KeysAreCalls(w) && LaunchesUsed(w) && FencesCover(w)
  }

  // ---- Every step ----

  /** A session once remembered for a token stays. */
  lemma MemoryStays(w: World, step: Step)
    requires Invariant(w) && KeysAreCalls(w) && Enabled(w, step)
    ensures forall t :: t in w.authorized ==>
              t in Next(w, step).authorized && Next(w, step).authorized[t] == w.authorized[t]
  {
  }

  /** The log only grows, and a section logs nothing while an earlier effect is being performed. */
  lemma StepShape(w: World, step: Step)
    requires Invariant(w) && Enabled(w, step)
    ensures w.slot.log <= Next(w, step).slot.log && w.done <= Next(w, step).done <= |Next(w, step).slot.log|
    ensures Next(w, step).done != w.done ==> Next(w, step).slot == w.slot && Next(w, step).done == w.done + 1
    ensures step.Supervise? ==> w.done == |w.slot.log|
  {
    if step.Supervise? { SupervisorRuns.StepKeepsInvariant(w.slot, step.event); }
  }

  /** Only a returning authorization launches a lease. */
  lemma OnlyReturnLaunches(w: World, step: Step, t: nat)
    requires w.done <= |w.slot.log| && Enabled(w, step)
    requires w.slot.log <= Next(w, step).slot.log && w.done <= Next(w, step).done <= |Next(w, step).slot.log|
    requires Launched(Next(w, step), t)
    ensures Launched(w, t) || (step.Return? && w.slot.log[w.done].AuthorizeCall? && w.slot.log[w.done].token == t)
  {
    var n := Next(w, step);
    var j :| 0 <= j < n.done && SupervisorRuns.LaunchedAt(n.slot.log, j, t);
    if j < w.done {
      assert w.slot.log[j] == n.slot.log[j];
      assert SupervisorRuns.LaunchedAt(w.slot.log, j, t);
    } else {
      assert n.done == w.done + 1 && n.slot == w.slot;
    }
  }

  lemma NextKeepsSessions(w: World, step: Step)
    requires Invariant(w) && SessionsAgree(w) && KeysAreCalls(w) && Enabled(w, step)
    ensures SessionsAgree(Next(w, step))
  {
    MemoryStays(w, step);
  }

  lemma NextKeepsKeys(w: World, step: Step)
    requires Invariant(w) && KeysAreCalls(w) && Enabled(w, step)
    ensures Next(w, step).done <= |Next(w, step).slot.log| && KeysAreCalls(Next(w, step))
  {
    StepShape(w, step);
    var n := Next(w, step);
    forall t | t in n.authorized ensures exists i :: CalledAt(n, i, t) {
      if t in w.authorized {
        var i :| CalledAt(w, i, t);
        assert CalledAt(n, i, t);
      } else {
        assert CalledAt(n, w.done, t);
      }
    }
  }

  /** The authorization that just returned was accepted, so its session had been opened. */
  lemma ReturnedSessionIsUsed(w: World)
    requires Invariant(w) && SessionsAgree(w) && Enabled(w, Return) && w.slot.log[w.done].AuthorizeCall?
    ensures w.slot.log[w.done].token in w.authorized && w.authorized[w.slot.log[w.done].token] in w.system.usedSessions
  {
    var m :| m in w.system.sent && Carries(m, w.calling.value, w.resource, w.slot.log[w.done]);
    assert OutputSystem.Ack(m.id, true) in w.system.acks;
    assert IsAuthorize(m, w.resource);
  }

  lemma NextKeepsLaunches(w: World, step: Step)
    requires Invariant(w) && SessionsAgree(w) && KeysAreCalls(w) && LaunchesUsed(w) && Enabled(w, step)
    requires Grown(w.system, Next(w, step).system)
    ensures Next(w, step).done <= |Next(w, step).slot.log| && LaunchesUsed(Next(w, step))
  {
    StepShape(w, step);
    MemoryStays(w, step);
    forall t: nat | Launched(Next(w, step), t)
      ensures t in Next(w, step).authorized && Next(w, step).authorized[t] in Next(w, step).system.usedSessions
    {
      OnlyReturnLaunches(w, step, t);
      if step.Return? && w.slot.log[w.done].AuthorizeCall? { ReturnedSessionIsUsed(w); }
    }
  }

  /** What a fence covered it covers for good. */
  lemma CoverStays(w: World, step: Step, id: string, t: int)
    requires Invariant(w) && KeysAreCalls(w) && Enabled(w, step)
    requires Grown(w.system, Next(w, step).system)
    requires Covers(w, id, t)
    ensures Covers(Next(w, step), id, t)
  {
    MemoryStays(w, step);
  }

  /** A fence that is raised by this step covers every lease launched so far. */
  lemma NewFenceCovers(w: World, step: OutputSystem.Step, id: string, t: nat)
    requires w.done <= |w.slot.log| && Enabled(w, Environment(step)) && LaunchesUsed(w) && Launched(w, t)
    requires id in OutputSystem.Next(w.system, step).fences && id !in w.system.fences
    ensures Covers(Next(w, Environment(step)), id, t)
  {
    OutputSystem.NextOnlyGrows(w.system, step);
  }

  /** Unless an authorization returns, what covered every launched lease still does. */
  lemma CoverageStays(w: World, step: Step, id: string)
    requires Invariant(w) && KeysAreCalls(w) && LaunchesUsed(w) && Enabled(w, step)
    requires Grown(w.system, Next(w, step).system)
    requires CoversLaunches(w, id) && !(step.Return? && w.slot.log[w.done].AuthorizeCall?)
    ensures Next(w, step).done <= |Next(w, step).slot.log| && CoversLaunches(Next(w, step), id)
  {
    StepShape(w, step);
    var n := Next(w, step);
    if id in n.system.fences {
      forall t: nat | Launched(n, t) ensures Covers(n, id, t) {
        OnlyReturnLaunches(w, step, t);
        if id in w.system.fences {
          CoverStays(w, step, id, t);
        } else {
          NewFenceCovers(w, step.step, id, t);
        }
      }
    }
  }

  lemma FreshCallHasNoFence(w: World, id: string)
    requires Invariant(w) && Enabled(w, Call(id))
    ensures id !in Next(w, Call(id)).system.fences
  {
    assert OutputSystem.AcksBacked(w.system);
  }

  ghost predicate SignalsCovered(w: World) {
    forall t :: t in w.signals && w.signals[t].fence.Some? ==> Covers(w, w.signals[t].fence.value, t)
  }

  /** A signal is given under a fence that covers its own lease: the lease was launched before. */
  lemma NewSignalIsPlaced(w: World)
    requires Invariant(w) && FencesCover(w) && Enabled(w, Local) && w.slot.log[w.done].CancelSignal?
    ensures w.lastFence.Some? ==> Covers(w, w.lastFence.value, w.slot.log[w.done].token)
  {
    var t := w.slot.log[w.done].token;
    var j :| 0 <= j < w.done && SupervisorRuns.LaunchedAt(w.slot.log, j, t);
    assert Launched(w, t);
    if w.lastFence.Some? {
      ReturnedIsFenced(w, w.lastFence.value, w.slot.log[w.done - 1].token);
    }
  }

  lemma NextKeepsSignals(w: World, step: Step)
    requires Invariant(w) && KeysAreCalls(w) && FencesCover(w) && Enabled(w, step)
    requires Grown(w.system, Next(w, step).system)
    ensures SignalsCovered(Next(w, step))
  {
    var n := Next(w, step);
    forall t | t in n.signals && n.signals[t].fence.Some? ensures Covers(n, n.signals[t].fence.value, t) {
      if step.Local? && w.slot.log[w.done].CancelSignal? && t == w.slot.log[w.done].token {
        NewSignalIsPlaced(w);
        CoverStays(w, step, w.lastFence.value, t);
      } else {
        CoverStays(w, step, w.signals[t].fence.value, t);
      }
    }
  }

  lemma NextKeepsCover(w: World, step: Step)
    requires Invariant(w) && KeysAreCalls(w) && LaunchesUsed(w) && FencesCover(w) && Enabled(w, step)
    requires Grown(w.system, Next(w, step).system)
    ensures Next(w, step).done <= |Next(w, step).slot.log| && FencesCover(Next(w, step))
  {
    StepShape(w, step);
    NextKeepsSignals(w, step);
    if step.Call? { FreshCallHasNoFence(w, step.id); }
    if !(step.Return? && w.slot.log[w.done].AuthorizeCall?) {
      if w.lastFence.Some? { CoverageStays(w, step, w.lastFence.value); }
      if w.calling.Some? && w.slot.log[w.done].NeutralizeCall? { CoverageStays(w, step, w.calling.value); }
    }
  }

  lemma NextOnlyGrows(w: World, step: Step)
    requires Invariant(w) && Enabled(w, step)
    ensures Grown(w.system, Next(w, step).system)
  {
    match step
    case Call(id) =>
      var sid := w.system.transport.session.value;
      SystemOnlyGrows(w.system, OutputSystem.BeginControl(id, sid, ControlOf(w.resource, w.slot.log[w.done])));
    case Environment(e) => SystemOnlyGrows(w.system, e);
    case _ =>
  }

  lemma NextKeepsPlaced(w: World, step: Step)
    requires Invariant(w) && Placed(w) && Enabled(w, step)
    ensures Placed(Next(w, step))
  {
    NextOnlyGrows(w, step);
    NextKeepsSessions(w, step);
    NextKeepsKeys(w, step);
    NextKeepsLaunches(w, step);
    NextKeepsCover(w, step);
  }

  lemma StartIsPlaced(w: World)
    requires w.slot.log == [] && w.done == 0 && w.system.sent == {} && w.authorized == map[] && w.signals == map[]
    requires w.calling.None? && w.lastFence.None?
    ensures Placed(w)
  {
  }

  lemma {:induction false} TraceKeepsPlaced(ws: seq<World>, steps: seq<Step>, i: nat)
    requires Trace(ws, steps) && i < |ws|
    ensures Placed(ws[i])
    decreases i
  {
    if i == 0 {
      StartIsPlaced(ws[0]);
    } else {
      TraceKeepsInvariant(ws, steps, i - 1);
      TraceKeepsPlaced(ws, steps, i - 1);
      var w := ws[i - 1];
      NextKeepsPlaced(w, steps[i - 1]);
      assert ws[i] == Next(w, steps[i - 1]);
    }
  }

  // ---- The guarantee ----

  /**
   The neutralize `id` of token `f` was sent in session `sid`; from the signal on, nothing up to its token is written
   there, and nothing under lease `t` in any session.
   */
  ghost predicate SilencedBy(w: World, t: nat, id: string, sid: string, f: int)
    requires t in w.signals
  {
    && f > t && id in w.system.returned
    && OutputSystem.ControlMessage(id, sid, OutputSystem.NeutralizeControl(w.resource, f)) in w.system.sent
    && forall i :: w.signals[t].mark <= i < |w.system.written| && w.system.written[i].resource == w.resource ==>
        && w.system.written[i].leaseToken != t
        && (w.system.written[i].sessionId == sid ==> w.system.written[i].leaseToken > f)
  }

  /** What was written under lease `t` was written in the session in which `t` was authorized. */
  lemma WrittenWhereAuthorized(w: World, i: nat)
    requires OutputSystem.Invariant(w.system) && SessionsAgree(w)
    requires i < |w.system.written| && w.system.written[i].resource == w.resource
    ensures
      var e := w.system.written[i];
      e.leaseToken in w.authorized && w.authorized[e.leaseToken] == e.sessionId
  {
    var e := w.system.written[i];
    assert OutputSystem.WriteAuthorized(w.system, e);
    var m :| m in w.system.sent
      && OutputSystem.Authorizes(m, e.sessionId, e.resource, e.leaseToken, Some(e.actionId));
    assert IsAuthorize(m, w.resource);
  }

  /** Behind a fence that covers lease `t`, neither the lease nor anything at or below the fence is written. */
  lemma FenceSilences(w: World, id: string, t: nat, f: int, i: nat)
    requires OutputSystem.Invariant(w.system) && SessionsAgree(w) && Covers(w, id, t) && t < f
    requires w.system.fences[id].resource == w.resource && w.system.fences[id].token == f
    requires w.system.fences[id].mark <= i < |w.system.written| && w.system.written[i].resource == w.resource
    ensures w.system.written[i].leaseToken != t
    ensures w.system.written[i].sessionId == w.system.fences[id].sessionId ==> w.system.written[i].leaseToken > f
  {
    assert OutputSystem.FenceHolds(w.system, w.system.fences[id]);
    assert OutputSystem.Passes(w.system.written[i], w.system.fences[id]);
    WrittenWhereAuthorized(w, i);
  }

  lemma CoveredIsSilenced(w: World, t: nat)
    requires OutputSystem.Invariant(w.system) && SessionsAgree(w) && SignalsCovered(w)
    requires t in w.signals && w.signals[t].fence.Some? && SignalCovered(w, t)
    ensures exists sid, f :: SilencedBy(w, t, w.signals[t].fence.value, sid, f)
  {
    var id := w.signals[t].fence.value;
    var f :| f > t && ReturnedFence(w, id, f) && id in w.system.fences && w.system.fences[id].mark <= w.signals[t].mark;
    var m :| m in w.system.sent && NeutralizeOf(m, id, w.resource, f);
    assert OutputSystem.Backed(w.system, m);
    forall i | w.signals[t].mark <= i < |w.system.written| && w.system.written[i].resource == w.resource
      ensures w.system.written[i].leaseToken != t
      ensures w.system.written[i].sessionId == m.sessionId ==> w.system.written[i].leaseToken > f
    {
      FenceSilences(w, id, t, f, i);
    }
    assert SilencedBy(w, t, id, m.sessionId, f);
  }

  /** A lease that has been signalled is silenced by the neutralize remembered with its signal. */
  lemma SignalledLeaseIsSilenced(ws: seq<World>, steps: seq<Step>, n: nat, t: nat)
    requires Trace(ws, steps) && n < |ws|
    requires t in ws[n].signals && ws[n].signals[t].fence.Some?
    ensures exists sid, f :: SilencedBy(ws[n], t, ws[n].signals[t].fence.value, sid, f)
  {
    TraceKeepsInvariant(ws, steps, n);
    TraceKeepsPlaced(ws, steps, n);
    CoveredIsSilenced(ws[n], t);
  }

  /** The cancel signal of lease `t` is the effect performed next. */
  ghost predicate SignalsNext(w: World, step: Step, t: nat) {
    step.Local? && w.done < |w.slot.log| && w.slot.log[w.done] == CancelSignal(t)
  }

  /** The signal of lease `t` was performed as effect `d`, and remembered as `signal`. */
  ghost predicate Signalled(w: World, d: nat, t: nat, signal: Signal) {
    && d < w.done <= |w.slot.log| && w.slot.log[d] == CancelSignal(t)
    && t in w.signals && w.signals[t] == signal
  }

  lemma SignalIsRemembered(w: World, step: Step, t: nat)
    requires w.done <= |w.slot.log| && Enabled(w, step) && SignalsNext(w, step, t)
    ensures Signalled(Next(w, step), w.done, t, Signal(|w.system.written|, w.lastFence))
  {
  }

  lemma OtherStepsKeepSignal(w: World, step: Step, t: nat)
    requires w.done <= |w.slot.log| && Enabled(w, step) && t in w.signals && !SignalsNext(w, step, t)
    ensures t in Next(w, step).signals && Next(w, step).signals[t] == w.signals[t]
  {
  }

  /** A lease is signalled once, so what is remembered about its signal stays. */
  lemma SignalStays(w: World, step: Step, d: nat, t: nat, signal: Signal)
    requires Invariant(w) && Enabled(w, step) && Signalled(w, d, t, signal)
    ensures Signalled(Next(w, step), d, t, signal)
  {
    StepShape(w, step);
    if SignalsNext(w, step, t) {
      SupervisorRuns.SignalledOnce(w.slot.log, d, w.done);
    } else {
      OtherStepsKeepSignal(w, step, t);
    }
  }

  /** What a signal remembers is the moment at which it became visible. */
  lemma {:induction false} SignalKeepsItsMoment(ws: seq<World>, steps: seq<Step>, k: nat, n: nat, t: nat)
    requires Trace(ws, steps) && k < n < |ws| && SignalsNext(ws[k], steps[k], t)
    ensures Signalled(ws[n], ws[k].done, t, Signal(|ws[k].system.written|, ws[k].lastFence))
    decreases n
  {
    if n == k + 1 {
      SignalIsRemembered(ws[k], steps[k], t);
    } else {
      TraceKeepsInvariant(ws, steps, n - 1);
      SignalKeepsItsMoment(ws, steps, k, n - 1, t);
      SignalStays(ws[n - 1], steps[n - 1], ws[k].done, t, Signal(|ws[k].system.written|, ws[k].lastFence));
    }
  }

  /**
   From the moment at which an executor can see its cancel signal, nothing is written under its lease, in any session,
   even though the executor is still running and may still be sending; unless the neutralize before the signal raised.
   */
  lemma CancelledLeaseIsSilent(ws: seq<World>, steps: seq<Step>, k: nat, n: nat, t: nat, i: nat)
    requires Trace(ws, steps) && k < n < |ws| && SignalsNext(ws[k], steps[k], t)
    requires ws[k].done > 0 && ws[k].slot.log[ws[k].done - 1].NeutralizeCall? && ws[k].slot.log[ws[k].done - 1].ok
    requires |ws[k].system.written| <= i < |ws[n].system.written|
    requires ws[n].system.written[i].resource == ws[n].resource
    ensures ws[n].system.written[i].leaseToken != t
  {
    TraceKeepsInvariant(ws, steps, k);
    assert LastFenceMatches(ws[k]);
    SignalKeepsItsMoment(ws, steps, k, n, t);
    SignalledLeaseIsSilenced(ws, steps, n, t);
    var sid, f :| SilencedBy(ws[n], t, ws[n].signals[t].fence.value, sid, f);
  }

  lemma SignalOutcome(w: World, i: nat)
    requires w.done <= |w.slot.log| && SupervisorRuns.SignalsFollowLaunch(w.slot.log)
    requires i < w.done && w.slot.log[i].CancelSignal?
    requires w.slot.log[i].token in w.signals && SignalExplained(w, w.slot.log[i].token)
    ensures i > 0 && w.slot.log[i - 1].NeutralizeCall?
    ensures w.signals[w.slot.log[i].token].fence.None? <==> !w.slot.log[i - 1].ok
  {
    var t := w.slot.log[i].token;
    var j :| 0 < j < w.done && w.slot.log[j] == CancelSignal(t) && w.slot.log[j - 1].NeutralizeCall?
      && (w.signals[t].fence.Some? <==> w.slot.log[j - 1].ok);
    SupervisorRuns.SignalledOnce(w.slot.log, i, j);
  }

  /** A cancel signal performed is recorded, and left without a fence exactly when the neutralize before it raised. */
  lemma CancelIsUnfencedIffNeutralizeRaised(ws: seq<World>, steps: seq<Step>, n: nat, i: nat)
    requires Trace(ws, steps) && n < |ws|
    requires i < ws[n].done <= |ws[n].slot.log| && ws[n].slot.log[i].CancelSignal?
    ensures i > 0 && ws[n].slot.log[i - 1].NeutralizeCall? && ws[n].slot.log[i].token in ws[n].signals
    ensures ws[n].signals[ws[n].slot.log[i].token].fence.None? <==> !ws[n].slot.log[i - 1].ok
  {
    TraceKeepsInvariant(ws, steps, n);
    assert Recorded(ws[n]) && SupervisorRuns.Signalled(ws[n].slot);
    SignalOutcome(ws[n], i);
  }
}
