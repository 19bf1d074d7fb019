/** What the motion director guarantees in every reachable state. */
module DirectorRuns {
  import opened Contracts
  import opened CueModel
  import opened DirectorModel
  import GatewayModel
  import GatewayRuns

  datatype Event =
    | StartEvent
    | AttachEvent(session: string)
    | DetachEvent(session: string)
    | HaltEvent
    | ShutdownEvent
    | FailEvent
    | SubmitEvent(actionId: string, prompt: string, duration: real, finite: bool, promptOk: bool, now: real)
    | SubmitIdleEvent(actionId: string, prompt: string, duration: real, finite: bool, promptOk: bool, now: real)
    | PlaybackEvent(revision: nat, startedAt: real)
    | PlaybackEndEvent(error: bool)
    | ManagerEvent(now: real, completedRevision: nat, promptOk: bool)
    | ExitEvent
    | AuthorizedEvent(ok: bool)
    | OpenedEvent(ok: bool)
    | ReconcileEvent(now: real)
    | ReappliedEvent(ok: bool)
    | AbortedEvent

  function Step(d: Director, e: Event): Director {
    match e
    case StartEvent => Start(d)
    case AttachEvent(session) => Attach(d, session)
    case DetachEvent(session) => Detach(d, session)
    case HaltEvent => Halt(d)
    case ShutdownEvent => Shutdown(d)
    case FailEvent => FailStream(d)
    case SubmitEvent(id, prompt, duration, finite, ok, now) =>
      SubmitCue(d, NewCue(id, prompt, duration, finite), ok, now)
    case SubmitIdleEvent(id, prompt, duration, finite, ok, now) =>
      SubmitIdleCue(d, NewCue(id, prompt, duration, finite), ok, now)
    case PlaybackEvent(revision, at) => PlaybackStarted(d, revision, at)
    case PlaybackEndEvent(error) => PlaybackEnds(d, error)
    case ManagerEvent(now, completed, ok) => ManagerPass(d, now, completed, ok)
    case ExitEvent => ManagerExits(d)
    case AuthorizedEvent(ok) => LaunchAuthorized(d, ok)
    case OpenedEvent(ok) => LaunchOpened(d, ok)
    case ReconcileEvent(now) => LaunchReconciles(d, now)
    case ReappliedEvent(ok) => LaunchReapplied(d, ok)
    case AbortedEvent => LaunchAborted(d)
  }

  /** Playback events come from the playback thread, for a revision its session has issued. */
  predicate Possible(d: Director, e: Event) {
    e.PlaybackEvent? ==> d.playback.Some? && d.playback.value.alive && 0 < e.revision <= d.playback.value.revision
  }

  predicate PossibleRun(d: Director, es: seq<Event>)
    decreases |es|
  {
    es != [] ==> Possible(d, es[0]) && PossibleRun(Step(d, es[0]), es[1..])
  }

  function Run(d: Director, es: seq<Event>): Director
    decreases |es|
  {
    if es == [] then d else Run(Step(d, es[0]), es[1..])
  }

  // ---- The reported state and the cue agree ----

  ghost predicate CueMatchesState(d: Director) {
    && (d.state == IdleState ==> d.cue.None?)
    && (d.state == PreparingCue ==> d.cue.Some? && d.cue.value.phase == PreparingPhase)
    && (d.state == CueState ==> d.cue.Some? && d.cue.value.phase == PlayingPhase)
    && (d.state == ReturningIdle ==> d.cue.Some? && d.cue.value.phase == ReturningPhase)
  }

  /** A bound cue waits for, or plays, the newest revision of the stream it is bound to. */
  ghost predicate CueIsNewest(d: Director) {
    d.playback.Some? && d.cue.Some? ==>
      var c := d.cue.value;
      var newest := Some(d.playback.value.revision);
      && (c.phase == PreparingPhase && c.promptRevision.Some? ==> c.promptRevision == newest)
      && (c.phase == PlayingPhase ==> c.promptRevision == newest)
      && (c.phase == ReturningPhase ==> c.idleRevision == newest)
  }

  // ---- Leases and fences ----

  /** A stream has exactly one lease; it is the newest token issued, or it is fenced by the newest token. */
  ghost predicate LeaseIsNewest(d: Director) {
    && (d.lease.Some? <==> d.playback.Some? || d.launch.Some?)
    && !(d.playback.Some? && d.launch.Some?)
    && (d.launch.Some? ==> d.lease == Some(d.launch.value.lease))
    && (d.fence.Some? ==> d.lease.Some? && d.lease.value < d.fence.value == d.leaseToken)
    && (d.lease.Some? && d.fence.None? ==> d.lease.value == d.leaseToken)
  }

  /** A fenced stream is never reported as active, and no cue is bound to it. */
  ghost predicate FencedIsInactive(d: Director) {
    d.fence.Some? ==>
      !Active(d.state) && (d.cue.Some? ==> d.cue.value.phase == PreparingPhase && d.cue.value.promptRevision.None?)
  }

  ghost predicate TokensIncrease(d: Director) {
    && (forall i :: 0 <= i < |d.issued| ==> d.issued[i].token <= d.leaseToken)
    && (forall i, j :: 0 <= i < j < |d.issued| ==> d.issued[i].token < d.issued[j].token)
    && (forall i :: 0 <= i < |d.issued| && d.issued[i].FenceIssued? ==> d.issued[i].lease < d.issued[i].token)
  }

  ghost predicate FencedOnce(d: Director) {
    && (forall i, j :: 0 <= i < j < |d.issued| && d.issued[i].FenceIssued? && d.issued[j].FenceIssued? ==>
          d.issued[i].lease < d.issued[j].lease)
    && (d.lease.Some? && d.fence.None? ==>
          forall i :: 0 <= i < |d.issued| && d.issued[i].FenceIssued? ==> d.issued[i].lease < d.lease.value)
  }

  ghost predicate Agreement(d: Director) {
    CueMatchesState(d) && CueIsNewest(d) && LeaseIsNewest(d) && FencedIsInactive(d)
  }

  ghost predicate Tokens(d: Director) {
    TokensIncrease(d) && FencedOnce(d)
  }

  ghost predicate Invariant(d: Director) {
    Agreement(d) && Tokens(d)
  }

  lemma AttachmentKeepsAgreement(d: Director, e: Event)
    requires Agreement(d) && (e.StartEvent? || e.AttachEvent? || e.DetachEvent?)
    ensures Agreement(Step(d, e))
  {
  }

  lemma StopsKeepAgreement(d: Director, e: Event)
    requires Agreement(d) && (e.HaltEvent? || e.ShutdownEvent? || e.FailEvent?)
    ensures Agreement(Step(d, e))
  {
  }

  lemma SubmitKeepsAgreement(d: Director, c: Cue, promptOk: bool, now: real)
    requires Agreement(d) && c.phase == PreparingPhase && c.promptRevision.None?
    ensures Agreement(SubmitCue(d, c, promptOk, now))
  {
  }

  lemma PlaybackKeepsAgreement(d: Director, e: Event)
    requires Agreement(d) && Possible(d, e)
    requires e.PlaybackEvent? || e.PlaybackEndEvent?
    ensures Agreement(Step(d, e))
  {
  }

  lemma FinishKeepsAgreement(d: Director)
    requires Agreement(d) && d.launch.None? && !d.stop
    ensures Agreement(FinishStream(d)) && FinishStream(d).launch.None?
  {
  }

  lemma PassKeepsAgreement(d: Director, now: real, completed: nat, promptOk: bool)
    requires Agreement(d)
    ensures Agreement(ManagerPass(d, now, completed, promptOk))
  {
    if d.launch.None? && !d.stop {
      FinishKeepsAgreement(d);
    }
  }

  lemma DropKeepsAgreement(d: Director, state: DirectorState)
    requires Agreement(d) && d.launch.Some? && !Active(state)
    ensures Agreement(DropLease(d).(state := state))
  {
  }

  lemma FailKeepsAgreement(d: Director)
    requires Agreement(d) && d.launch.Some?
    ensures Agreement(LaunchFails(d))
  {
  }

  lemma AuthorizedKeepsAgreement(d: Director, ok: bool)
    requires Agreement(d) && d.launch.Some?
    ensures Agreement(LaunchAuthorized(d, ok))
  {
    FailKeepsAgreement(d);
    PhaseKeepsAgreement(d, Opening);
    DropKeepsAgreement(d, if d.enabled then WaitingOutput else Halted);
  }

  lemma AppliedKeepsAgreement(d: Director, e: Event)
    requires Agreement(d) && d.launch.Some? && (e.OpenedEvent? || e.ReappliedEvent?)
    ensures Agreement(Step(d, e))
  {
    FailKeepsAgreement(d);
    var l := d.launch.value;
    PhaseKeepsAgreement(d, Applied(1, l.prompt, l.cueId));
    if l.phase.Reapplying? {
      PhaseKeepsAgreement(d, Applied(l.phase.lastRevision + 1, l.phase.nextPrompt, l.phase.nextCueId));
    }
  }

  lemma AbortedKeepsAgreement(d: Director)
    requires Agreement(d) && d.launch.Some?
    ensures Agreement(LaunchAborted(d))
  {
    DropKeepsAgreement(d, if d.enabled then WaitingOutput else Halted);
  }

  lemma ReconcileKeepsAgreement(d: Director, now: real)
    requires Agreement(d)
    ensures Agreement(LaunchReconciles(d, now))
  {
    if d.launch.Some? && d.launch.value.phase.Applied? {
      if StillCurrent(d) {
        BeginKeepsAgreement(d, d.launch.value.phase.revision, now);
      }
      forall phase: LaunchPhase ensures Agreement(d.(launch := Some(d.launch.value.(phase := phase)))) {
        PhaseKeepsAgreement(d, phase);
      }
    }
  }

  lemma PhaseKeepsAgreement(d: Director, phase: LaunchPhase)
    requires Agreement(d) && d.launch.Some?
    ensures Agreement(d.(launch := Some(d.launch.value.(phase := phase))))
  {
  }

  lemma BeginKeepsAgreement(d: Director, revision: nat, now: real)
    requires Agreement(d) && d.launch.Some? && d.fence.None?
    ensures Agreement(BeginPlayback(d, revision, now))
  {
  }

  lemma StepKeepsAgreement(d: Director, e: Event)
    requires Agreement(d) && Possible(d, e)
    ensures Agreement(Step(d, e))
  {
    match e
    case StartEvent => AttachmentKeepsAgreement(d, e);
    case AttachEvent(_) => AttachmentKeepsAgreement(d, e);
    case DetachEvent(_) => AttachmentKeepsAgreement(d, e);
    case HaltEvent => StopsKeepAgreement(d, e);
    case ShutdownEvent => StopsKeepAgreement(d, e);
    case FailEvent => StopsKeepAgreement(d, e);
    case ManagerEvent(now, completed, ok) => PassKeepsAgreement(d, now, completed, ok);
    case ExitEvent =>
    case SubmitEvent(id, prompt, duration, finite, ok, now) =>
      SubmitKeepsAgreement(d, NewCue(id, prompt, duration, finite), ok, now);
    case SubmitIdleEvent(id, prompt, duration, finite, ok, now) =>
      SubmitKeepsAgreement(d, NewCue(id, prompt, duration, finite), ok, now);
    case PlaybackEvent(_, _) => PlaybackKeepsAgreement(d, e);
    case PlaybackEndEvent(_) => PlaybackKeepsAgreement(d, e);
    case ReconcileEvent(now) => ReconcileKeepsAgreement(d, now);
    case AuthorizedEvent(ok) =>
      if d.launch.Some? {
        AuthorizedKeepsAgreement(d, ok);
      }
    case AbortedEvent =>
      if d.launch.Some? {
        AbortedKeepsAgreement(d);
      }
    case _ =>
      if d.launch.Some? {
        AppliedKeepsAgreement(d, e);
      }
  }

  /** What a step may do to the token history: nothing, or issue one new highest token. */
  ghost predicate IssuesAtMostOne(d: Director, n: Director) {
    || SameTokens(d, n)
    || (n.leaseToken == d.leaseToken + 1 && n.issued == d.issued + [LeaseIssued(n.leaseToken)]
        && n.lease == Some(n.leaseToken))
    || (n.leaseToken == d.leaseToken + 1 && d.lease.Some? && d.fence.None?
        && n.issued == d.issued + [FenceIssued(n.leaseToken, d.lease.value)]
        && n.lease == d.lease && n.fence == Some(n.leaseToken))
  }

  lemma StepIssuesAtMostOne(d: Director, e: Event)
    requires LeaseIsNewest(d)
    ensures IssuesAtMostOne(d, Step(d, e))
  {
    match e
    case ManagerEvent(now, completed, ok) => PassIssuesAtMostOne(d, now, completed, ok);
    case AuthorizedEvent(ok) => assert SameTokens(d, LaunchAuthorized(d, ok));
    case OpenedEvent(ok) => assert SameTokens(d, LaunchOpened(d, ok));
    case ReconcileEvent(now) => assert SameTokens(d, LaunchReconciles(d, now));
    case ReappliedEvent(ok) => assert SameTokens(d, LaunchReapplied(d, ok));
    case AbortedEvent => assert SameTokens(d, LaunchAborted(d));
    case HaltEvent => FencingIssuesAtMostOne(d);
    case FailEvent => FencingIssuesAtMostOne(d);
    case _ => OtherIssuesAtMostOne(d, e);
  }

  lemma PassIssuesAtMostOne(d: Director, now: real, completed: nat, promptOk: bool)
    requires LeaseIsNewest(d)
    ensures IssuesAtMostOne(d, ManagerPass(d, now, completed, promptOk))
  {
    assert SameTokens(d, FinishStream(d));
  }

  lemma FencingIssuesAtMostOne(d: Director)
    requires LeaseIsNewest(d)
    ensures IssuesAtMostOne(d, Halt(d)) && IssuesAtMostOne(d, FailStream(d))
  {
  }

  lemma OtherIssuesAtMostOne(d: Director, e: Event)
    requires LeaseIsNewest(d) && !(e.ManagerEvent? || e.AuthorizedEvent? || e.OpenedEvent?)
    requires !(e.ReconcileEvent? || e.ReappliedEvent? || e.AbortedEvent? || e.HaltEvent? || e.FailEvent?)
    ensures IssuesAtMostOne(d, Step(d, e))
  {
    assert SameTokens(d, Step(d, e));
  }

  lemma IssuingKeepsTokens(d: Director, n: Director)
    requires Tokens(d) && IssuesAtMostOne(d, n) && LeaseIsNewest(d)
    ensures Tokens(n) && d.issued <= n.issued && d.leaseToken <= n.leaseToken
  {
  }

  lemma StepKeepsInvariant(d: Director, e: Event)
    requires Invariant(d) && Possible(d, e)
    ensures Invariant(Step(d, e))
  {
    StepKeepsAgreement(d, e);
    StepIssuesAtMostOne(d, e);
    IssuingKeepsTokens(d, Step(d, e));
  }

  lemma {:induction false} RunKeepsInvariant(d: Director, es: seq<Event>)
    requires Invariant(d) && PossibleRun(d, es)
    ensures Invariant(Run(d, es))
    decreases |es|
  {
    if es != [] {
      StepKeepsInvariant(d, es[0]);
      RunKeepsInvariant(Step(d, es[0]), es[1..]);
    }
  }

  // ---- Main results ----

  lemma NewIsSound(idlePrompt: string, timeout: real)
    ensures Invariant(New(idlePrompt, timeout))
  {
  }

  /** Idle means no cue, cue means playing, returning means returning: in every reachable state. */
  lemma StateAndCueAgree(idlePrompt: string, timeout: real, es: seq<Event>)
    requires PossibleRun(New(idlePrompt, timeout), es)
    ensures CueMatchesState(Run(New(idlePrompt, timeout), es))
  {
    NewIsSound(idlePrompt, timeout);
    RunKeepsInvariant(New(idlePrompt, timeout), es);
  }

  /** A late playback event for a superseded revision moves neither the cue nor the reported state. */
  lemma SupersededEventIsIgnored(idlePrompt: string, timeout: real, es: seq<Event>, revision: nat, at: real)
    requires PossibleRun(New(idlePrompt, timeout), es)
    requires var d := Run(New(idlePrompt, timeout), es); d.playback.Some? && revision < d.playback.value.revision
    ensures var d := Run(New(idlePrompt, timeout), es); PlaybackStarted(d, revision, at) == d
  {
    NewIsSound(idlePrompt, timeout);
    RunKeepsInvariant(New(idlePrompt, timeout), es);
  }

  /** Tokens strictly increase over the whole run, and a stream lease is fenced at most once, from above. */
  lemma LeasesAreFencedOnce(idlePrompt: string, timeout: real, es: seq<Event>, i: nat, j: nat)
    requires PossibleRun(New(idlePrompt, timeout), es)
    requires i < j < |Run(New(idlePrompt, timeout), es).issued|
    ensures
      var issued := Run(New(idlePrompt, timeout), es).issued;
      && issued[i].token < issued[j].token
      && (issued[j].FenceIssued? ==> issued[j].lease < issued[j].token)
      && (issued[i].FenceIssued? && issued[j].FenceIssued? ==> issued[i].lease != issued[j].lease)
  {
    NewIsSound(idlePrompt, timeout);
    RunKeepsInvariant(New(idlePrompt, timeout), es);
  }

  /** Halting or failing leaves no stream unfenced, and a fenced stream is never reported active again. */
  lemma HaltFencesTheStream(idlePrompt: string, timeout: real, es: seq<Event>, halt: bool, later: seq<Event>)
    requires PossibleRun(New(idlePrompt, timeout), es)
    requires Run(New(idlePrompt, timeout), es).started
    requires var d := Run(New(idlePrompt, timeout), es); PossibleRun(if halt then Halt(d) else FailStream(d), later)
    ensures
      var d := Run(New(idlePrompt, timeout), es);
      var halted := if halt then Halt(d) else FailStream(d);
      && (d.lease.Some? ==> halted.fence.Some? && halted.fence.value > d.lease.value)
      && (Run(halted, later).fence.Some? ==> !Active(Run(halted, later).state))
  {
    NewIsSound(idlePrompt, timeout);
    RunKeepsInvariant(New(idlePrompt, timeout), es);
    var d := Run(New(idlePrompt, timeout), es);
    var e := if halt then HaltEvent else FailEvent;
    StepKeepsInvariant(d, e);
    if d.lease.Some? { FencedFromAbove(d, e); }
    RunKeepsInvariant(Step(d, e), later);
  }

  lemma FencedFromAbove(d: Director, e: Event)
    requires Invariant(d) && d.started && (e.HaltEvent? || e.FailEvent?) && d.lease.Some?
    ensures Step(d, e).fence.Some? && Step(d, e).fence.value > d.lease.value
  {
  }

  // ---- After a halt ----

  /** Disabled: what stream there still is has been fenced and asked to stop. */
  ghost predicate Resting(d: Director) {
    && d.started && !d.enabled
    && (d.lease.Some? ==> d.fence.Some?)
    && (d.playback.Some? ==> d.playback.value.stopReason.Some?)
  }

  /** No token is issued and no stream begins. */
  ghost predicate StaysDown(d: Director, n: Director) {
    && Resting(n) && n.issued == d.issued
    && (d.playback.None? ==> n.playback.None?)
  }

  lemma AuthorizedStaysDown(d: Director, ok: bool)
    requires Resting(d)
    ensures StaysDown(d, LaunchAuthorized(d, ok)) && StaysDown(d, LaunchAborted(d))
  {
  }

  lemma AppliedStaysDown(d: Director, ok: bool)
    requires Resting(d)
    ensures StaysDown(d, LaunchOpened(d, ok)) && StaysDown(d, LaunchReapplied(d, ok))
  {
  }

  lemma ReconcileStaysDown(d: Director, now: real)
    requires Resting(d)
    ensures StaysDown(d, LaunchReconciles(d, now))
  {
  }

  lemma PassStaysDown(d: Director, now: real, completed: nat, promptOk: bool)
    requires Resting(d)
    ensures StaysDown(d, ManagerPass(d, now, completed, promptOk))
  {
    assert Resting(FinishStream(d)) && SameTokens(d, FinishStream(d));
  }

  lemma StepStaysDown(d: Director, e: Event)
    requires Resting(d) && !e.SubmitEvent?
    ensures StaysDown(d, Step(d, e))
  {
    match e
    case ManagerEvent(now, completed, ok) => PassStaysDown(d, now, completed, ok);
    case AuthorizedEvent(ok) => AuthorizedStaysDown(d, ok);
    case OpenedEvent(ok) => AppliedStaysDown(d, ok);
    case ReconcileEvent(now) => ReconcileStaysDown(d, now);
    case ReappliedEvent(ok) => AppliedStaysDown(d, ok);
    case AbortedEvent => AuthorizedStaysDown(d, true);
    case _ =>
  }

  lemma {:induction false} RunStaysDown(d: Director, es: seq<Event>)
    requires Resting(d) && forall e :: e in es ==> !e.SubmitEvent?
    ensures StaysDown(d, Run(d, es))
    decreases |es|
  {
    if es != [] {
      StepStaysDown(d, es[0]);
      RunStaysDown(Step(d, es[0]), es[1..]);
    }
  }

  /**
   Once a started director was halted, or its stream failed, no token is issued and no playback begins until the next
   cue is submitted, whatever the manager, the session and a start already under way do; a playback that was running
   has been asked to stop, and its lease is fenced. An idle cue wakes nothing.
   */
  lemma NothingBeginsAfterHalt(d: Director, halt: bool, es: seq<Event>)
    requires d.started && forall e :: e in es ==> !e.SubmitEvent?
    ensures var down := if halt then Halt(d) else FailStream(d); Resting(down) && StaysDown(down, Run(down, es))
  {
    RunStaysDown(if halt then Halt(d) else FailStream(d), es);
  }

  /**
   The start/halt race. Whatever fence the director ever issued, the gateway may process it before or
   after the authorization of the lease it fences, with any traffic in between: afterwards nothing from
   that stream is written.
   */
  lemma FenceWinsTheRace(
      idlePrompt: string, timeout: real, es: seq<Event>, i: nat,
      g: GatewayModel.Gateway, sid: string, actionId: string, sinkOk: bool, neutralizeFirst: bool,
      before: seq<GatewayRuns.Event>, between: seq<GatewayRuns.Event>, after: seq<GatewayRuns.Event>)
    requires PossibleRun(New(idlePrompt, timeout), es)
    requires i < |Run(New(idlePrompt, timeout), es).issued| && Run(New(idlePrompt, timeout), es).issued[i].FenceIssued?
    requires g.session == Some(sid)
    ensures
      var fence := Run(New(idlePrompt, timeout), es).issued[i];
      var authorize := GatewayRuns.AuthorizeEvent(sid, Lease(FullBodyPose, fence.lease, Some(actionId)));
      var neutralize := GatewayRuns.NeutralizeEvent(sid, FullBodyPose, fence.token, sinkOk);
      var first := if neutralizeFirst then neutralize else authorize;
      var second := if neutralizeFirst then authorize else neutralize;
      var mid := GatewayRuns.Run(GatewayRuns.Step(GatewayRuns.Run(g, before), first).gateway, between);
      var settled := GatewayRuns.Step(mid, second).gateway;
      && GatewayRuns.Run(settled, after).resources[FullBodyPose].leaseToken >= fence.token
      && forall e :: e in GatewayRuns.WrittenLog(settled, after) && e.resource == FullBodyPose ==>
           e.leaseToken > fence.lease
  {
    NewIsSound(idlePrompt, timeout);
    RunKeepsInvariant(New(idlePrompt, timeout), es);
    var fence := Run(New(idlePrompt, timeout), es).issued[i];
    GatewayRuns.AuthorizeNeutralizeRace(
      g, sid, Lease(FullBodyPose, fence.lease, Some(actionId)), fence.token, sinkOk, neutralizeFirst,
      before, between, after);
  }
}
