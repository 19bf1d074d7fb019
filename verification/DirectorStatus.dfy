/** What the reported status says, in every reachable state, and how the director leaves one session for another. */
module DirectorStatus {
  import opened Contracts
  import opened CueModel
  import opened DirectorModel
  import opened DirectorRuns
  import opened DirectorPrompts
  import opened DirectorCourse

  // ---- The status ----

  /** What each reported state says about the director; a stream has a cue only while it is wanted. */
  ghost predicate Reported(d: Director) {
    (d.playback.Some? && d.cue.Some? ==> d.enabled) &&
    match d.state
    case Stopped => !d.started || d.exited
    case Halted => !d.enabled
    case FailedState => !d.enabled
    case WaitingOutput => d.enabled
    case Starting => d.enabled && d.session.Some?
    case Stopping => d.enabled && !d.stop ==> d.lease.Some? && (d.launch.Some? ==> d.session.None?)
    case _ => d.enabled && d.started
  }

  lemma AttachmentKeepsReported(d: Director, e: Event)
    requires Agreement(d) && Reported(d) && (e.StartEvent? || e.AttachEvent? || e.DetachEvent?)
    ensures Reported(Step(d, e))
  {
  }

  lemma StopsKeepReported(d: Director, e: Event)
    requires Reported(d) && (e.HaltEvent? || e.ShutdownEvent? || e.FailEvent? || e.ExitEvent?)
    ensures Reported(Step(d, e))
  {
  }

  lemma SubmitKeepsReported(d: Director, c: Cue, promptOk: bool, now: real)
    requires Agreement(d) && Reported(d)
    ensures Reported(SubmitCue(d, c, promptOk, now))
  {
  }

  lemma PlaybackKeepsReported(d: Director, e: Event)
    requires Reported(d) && Agreement(d) && Shown(d) && Possible(d, e) && (e.PlaybackEvent? || e.PlaybackEndEvent?)
    ensures Reported(Step(d, e))
  {
  }

  lemma PassKeepsReported(d: Director, now: real, completed: nat, promptOk: bool)
    requires Reported(d) && Agreement(d) && Shown(d)
    ensures Reported(ManagerPass(d, now, completed, promptOk))
  {
  }

  lemma GivingUpKeepsReported(d: Director, n: Director)
    requires Reported(d) && d.launch.Some? && n.playback == d.playback && (n.cue == d.cue || n.cue.None?)
    requires n.started == d.started && n.exited == d.exited && n.stop == d.stop && n.session == d.session
    requires n.launch.None?
    requires
      || (!n.enabled && n.cue.None? && n.state == FailedState)
      || (n.enabled == d.enabled && n.state == if n.enabled then WaitingOutput else Halted)
      || (n.enabled && d.enabled && d.session.Some? && n.state == d.state)
    ensures Reported(n)
  {
  }

  lemma LaunchFailsKeepsReported(d: Director)
    requires Reported(d) && d.launch.Some?
    ensures Reported(LaunchFails(d))
  {
    var n := LaunchFails(d);
    if d.enabled && d.session == Some(d.launch.value.session) && !d.stop {
      assert n == DropLease(d).(enabled := false, cue := None, state := FailedState);
      GivingUpKeepsReported(d, n);
    } else if !d.enabled || d.session.None? {
      assert n == DropLease(d).(state := if d.enabled then WaitingOutput else Halted);
      GivingUpKeepsReported(d, n);
    } else {
      assert n == DropLease(d);
      GivingUpKeepsReported(d, n);
    }
  }

  lemma LaunchKeepsReported(d: Director, e: Event)
    requires Agreement(d) && Reported(d)
    requires e.AuthorizedEvent? || e.OpenedEvent? || e.ReappliedEvent? || e.AbortedEvent?
    ensures Reported(Step(d, e))
  {
    if d.launch.Some? { LaunchFailsKeepsReported(d); }
  }

  lemma ReconcileKeepsReported(d: Director, now: real)
    requires Agreement(d) && Reported(d) && Shown(d)
    ensures Reported(LaunchReconciles(d, now))
  {
  }

  lemma StepKeepsReported(d: Director, e: Event)
    requires Agreement(d) && Shown(d) && Reported(d) && Possible(d, e)
    ensures Reported(Step(d, e))
  {
    match e
    case StartEvent => AttachmentKeepsReported(d, e);
    case AttachEvent(_) => AttachmentKeepsReported(d, e);
    case DetachEvent(_) => AttachmentKeepsReported(d, e);
    case SubmitEvent(id, prompt, duration, finite, ok, now) =>
      SubmitKeepsReported(d, NewCue(id, prompt, duration, finite), ok, now);
    case SubmitIdleEvent(id, prompt, duration, finite, ok, now) =>
      SubmitKeepsReported(d, NewCue(id, prompt, duration, finite), ok, now);
    case PlaybackEvent(_, _) => PlaybackKeepsReported(d, e);
    case PlaybackEndEvent(_) => PlaybackKeepsReported(d, e);
    case ManagerEvent(now, completed, ok) => PassKeepsReported(d, now, completed, ok);
    case ReconcileEvent(now) => ReconcileKeepsReported(d, now);
    case AuthorizedEvent(_) => LaunchKeepsReported(d, e);
    case OpenedEvent(_) => LaunchKeepsReported(d, e);
    case ReappliedEvent(_) => LaunchKeepsReported(d, e);
    case AbortedEvent => LaunchKeepsReported(d, e);
    case _ => StopsKeepReported(d, e);
  }

  lemma {:induction false} RunKeepsReported(d: Director, es: seq<Event>)
    requires Invariant(d) && Shown(d) && Reported(d) && PossibleRun(d, es)
    ensures Reported(Run(d, es))
    decreases |es|
  {
    if es != [] {
      StepKeepsInvariant(d, es[0]);
      StepKeepsShown(d, es[0]);
      StepKeepsReported(d, es[0]);
      RunKeepsReported(Step(d, es[0]), es[1..]);
    }
  }

  /**
   In every reachable state a director that reports HALTED or FAILED wants no stream; one that waits, starts, idles or
   plays a cue wants one, and has a session to start it for; one that wants a stream is STOPPING only while it still
   owns the lease of the one before.
   */
  lemma StatusIsTruthful(idlePrompt: string, timeout: real, es: seq<Event>, d: Director)
    requires Reachable(idlePrompt, timeout, es, d)
    ensures d.state == Stopped ==> !d.started || d.exited
    ensures d.state == Halted || d.state == FailedState ==> !d.enabled
    ensures d.state == WaitingOutput || d.state == Starting || Active(d.state) ==> d.enabled
    ensures d.state == Starting ==> d.session.Some?
    ensures d.state == Stopping && d.enabled && !d.stop ==> d.lease.Some?
    ensures Active(d.state) && !d.stop ==> d.playback.Some? && d.fence.None? && d.playback.value.stopReason.None?
  {
    NewIsSound(idlePrompt, timeout);
    RunKeepsReported(New(idlePrompt, timeout), es);
    ReachableIsShown(idlePrompt, timeout, es, d);
  }

  // ---- Sessions ----

  /** One output session at a time: while one is attached another is refused, and only the attached one is detached. */
  lemma OneSessionAtATime(d: Director, session: string)
    ensures d.started ==>
      Attach(d, session).session == (if d.session.Some? then d.session else Some(session))
    ensures d.session.Some? ==> Attach(d, session) == d
    ensures d.session != Some(session) ==> Detach(d, session) == d
  {
  }

  /** A running stream is halted or left for want of a session; what is reported then, until it has ended. */
  lemma LeavingIsReported(d: Director, session: string)
    requires d.started
    ensures Halt(d).state == if d.lease.Some? then Stopping else Halted
    ensures d.session == Some(session) ==>
      Detach(d, session).state ==
      if d.lease.Some? then Stopping else if d.enabled then WaitingOutput else Halted
  {
  }

  /** When the session was replaced, the stream that has ended is followed by one for the new session. */
  lemma ReplacedSessionGetsItsStream(d: Director, session: string, next: string, error: bool, now: real)
    requires Streaming(d) && !d.stop && d.enabled && d.session == Some(session)
    requires d.playback.value.stopReason.None?
    ensures
      var moved := Attach(Detach(d, session), next);
      var n := ManagerPass(PlaybackEnds(moved, error), now, 0, true);
      && n.launch == Some(Launch(next, d.leaseToken + 1, d.idlePrompt, None, Authorizing))
      && n.state == Starting && n.playback.None? && n.lease == Some(d.leaseToken + 1)
  {
  }

  // ---- Why a stream stops ----

  /** The stream goes on through every state of the run. */
  predicate GoesOn(d: Director, es: seq<Event>)
    decreases |es|
  {
    d.playback.Some? && (es != [] ==> GoesOn(Step(d, es[0]), es[1..]))
  }

  lemma PassKeepsTheReason(d: Director, now: real, completed: nat, promptOk: bool)
    requires d.playback.Some? && d.launch.None?
    requires ManagerPass(d, now, completed, promptOk).playback.Some?
    ensures ManagerPass(d, now, completed, promptOk).playback.value.stopReason == d.playback.value.stopReason
    ensures ManagerPass(d, now, completed, promptOk).launch.None?
  {
  }

  lemma SubmitKeepsTheReason(d: Director, c: Cue, promptOk: bool, now: real)
    requires d.playback.Some? && d.launch.None?
    ensures
      var n := SubmitCue(d, c, promptOk, now);
      n.launch.None? && n.playback.Some? && n.playback.value.stopReason == d.playback.value.stopReason
  {
  }

  lemma StepKeepsTheReason(d: Director, e: Event)
    requires d.playback.Some? && d.playback.value.stopReason.Some? && d.launch.None?
    requires Step(d, e).playback.Some?
    ensures Step(d, e).playback.value.stopReason == d.playback.value.stopReason && Step(d, e).launch.None?
  {
    match e
    case ManagerEvent(now, completed, ok) => PassKeepsTheReason(d, now, completed, ok);
    case SubmitEvent(id, prompt, duration, finite, ok, now) =>
      SubmitKeepsTheReason(d, NewCue(id, prompt, duration, finite), ok, now);
    case SubmitIdleEvent(id, prompt, duration, finite, ok, now) =>
      SubmitKeepsTheReason(d, NewCue(id, prompt, duration, finite), ok, now);
    case _ =>
  }

  /** The first reason for which a stream was asked to stop is the one it ends for. */
  lemma {:induction false} FirstReasonStays(d: Director, es: seq<Event>)
    requires GoesOn(d, es) && d.playback.value.stopReason.Some? && d.launch.None?
    ensures Run(d, es).playback.Some? && Run(d, es).playback.value.stopReason == d.playback.value.stopReason
    decreases |es|
  {
    if es != [] {
      StepKeepsTheReason(d, es[0]);
      FirstReasonStays(Step(d, es[0]), es[1..]);
    }
  }

  /** Ended without a lease, a cue or a wish for another stream. */
  predicate AtRest(d: Director, state: DirectorState) {
    d.state == state && !d.enabled && d.playback.None? && d.lease.None? && d.cue.None?
  }

  /** A stream that failed leaves a failed director. */
  lemma FailureIsReported(d: Director, error: bool, now: real)
    requires Streaming(d) && !d.stop && d.playback.value.stopReason.None?
    ensures AtRest(ManagerPass(PlaybackEnds(FailStream(d), error), now, 0, true), FailedState)
  {
  }

  /** One that had been halted before it failed leaves a halted one. */
  lemma HaltOutlivesFailure(d: Director, error: bool, now: real)
    requires Streaming(d) && !d.stop && d.playback.value.stopReason.None?
    ensures AtRest(ManagerPass(PlaybackEnds(FailStream(Halt(d)), error), now, 0, true), Halted)
  {
  }

  // ---- Starts that go another way ----

  /** A cue that was there before the stream was started is the only prompt the session is given. */
  lemma StartReachesTheCue(d: Director, id: string, prompt: string, duration: real, finite: bool, at: real, now: real)
    requires ReadyToStart(d) && d.state == Starting
    ensures
      var asked := SubmitCue(d, NewCue(id, prompt, duration, finite), true, at);
      var n := LaunchReconciles(Opened(asked, now), now);
      && n.state == PreparingCue && n.given == [prompt] && n.playback == Some(Playback(1, true, None, false))
      && n.cue.Some? && n.cue.value.actionId == id && n.cue.value.promptRevision == Some(1)
  {
  }

  /** Halted, or without its session, while the lease was being authorized: however that ends, the start is given up. */
  lemma OvertakenStartIsGivenUp(d: Director, session: string, now: real, ok: bool)
    requires ReadyToStart(d) && d.session == Some(session)
    ensures
      var issued := ManagerPass(d, now, 0, true);
      var halted := LaunchAuthorized(Halt(issued), ok);
      var left := LaunchAuthorized(Detach(issued, session), ok);
      && halted.state == Halted && halted.lease.None? && halted.launch.None?
      && left.state == WaitingOutput && left.lease.None? && left.launch.None? && left.enabled
  {
  }

  /** The session is being opened under the lease, and nothing has overtaken it yet. */
  predicate IsOpening(d: Director, session: string) {
    && d.started && !d.stop && d.enabled && d.session == Some(session) && d.playback.None? && d.cue.None?
    && d.lease == Some(d.leaseToken) && d.fence.None?
    && d.launch == Some(Launch(session, d.leaseToken, d.idlePrompt, None, Opening))
  }

  lemma OpeningAfterPass(d: Director, session: string, now: real)
    requires ReadyToStart(d) && d.session == Some(session)
    ensures IsOpening(LaunchAuthorized(ManagerPass(d, now, 0, true), true), session)
  {
  }

  lemma HaltedOpening(d: Director, session: string, now: real)
    requires IsOpening(d, session)
    ensures
      var halted := LaunchAborted(LaunchReconciles(LaunchOpened(Halt(d), true), now));
      halted.state == Halted && halted.lease.None? && halted.launch.None? && halted.playback.None?
  {
  }

  lemma LeftOpening(d: Director, session: string, now: real)
    requires IsOpening(d, session)
    ensures
      var left := LaunchAborted(LaunchReconciles(LaunchOpened(Detach(d, session), true), now));
      left.state == WaitingOutput && left.lease.None? && left.launch.None? && left.playback.None? && left.enabled
  {
  }

  /** The same when the session was already opened: it is closed again, and playback never begins. */
  lemma OvertakenSessionIsAborted(d: Director, session: string, now: real, ok: bool)
    requires ReadyToStart(d) && d.session == Some(session)
    ensures
      var opening := LaunchAuthorized(ManagerPass(d, now, 0, true), true);
      var halted := LaunchAborted(LaunchReconciles(LaunchOpened(Halt(opening), true), now));
      var left := LaunchAborted(LaunchReconciles(LaunchOpened(Detach(opening, session), true), now));
      && halted.state == Halted && halted.lease.None? && halted.launch.None? && halted.playback.None?
      && left.state == WaitingOutput && left.lease.None? && left.launch.None? && left.playback.None? && left.enabled
  {
    OpeningAfterPass(d, session, now);
    HaltedOpening(LaunchAuthorized(ManagerPass(d, now, 0, true), true), session, now);
    LeftOpening(LaunchAuthorized(ManagerPass(d, now, 0, true), true), session, now);
  }

  lemma OpeningReapplies(d: Director, session: string, c: Cue, now: real)
    requires IsOpening(d, session)
    ensures
      var n := LaunchReconciles(SubmitCue(LaunchOpened(d, true), c, true, now), now);
      && StillCurrentSession(n, session) && n.playback.None? && n.launch.value.phase.Reapplying?
      && n.launch.value.session == session && n.lease == Some(n.launch.value.lease)
  {
  }

  predicate StillCurrentSession(d: Director, session: string) {
    d.enabled && !d.stop && d.session == Some(session) && d.launch.Some?
  }

  /** A prompt that the opening session does not take ends the start as failed. */
  lemma RefusedReapplicationFails(
      d: Director, now: real, id: string, prompt: string, duration: real, finite: bool)
    requires ReadyToStart(d)
    ensures
      var wanted := SubmitCue(Opened(d, now), NewCue(id, prompt, duration, finite), true, now);
      var n := LaunchReapplied(LaunchReconciles(wanted, now), false);
      n.state == FailedState && !n.enabled && n.lease.None? && n.launch.None? && n.cue.None? && n.playback.None?
  {
    var opening := LaunchAuthorized(ManagerPass(d, now, 0, true), true);
    OpeningAfterPass(d, d.session.value, now);
    OpeningReapplies(opening, d.session.value, NewCue(id, prompt, duration, finite), now);
  }
}
