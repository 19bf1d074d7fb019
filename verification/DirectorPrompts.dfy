/** Which prompt plays while the director reports a cue or idle, in every reachable state. */
module DirectorPrompts {
  import opened Contracts
  import opened CueModel
  import opened DirectorModel
  import opened DirectorRuns

  predicate GivenAt(d: Director, revision: nat, prompt: string) {
    0 < revision <= |d.given| && d.given[revision - 1] == prompt
  }

  predicate Loose(d: Director) {
    d.cue.None? || (d.cue.value.phase == PreparingPhase && d.cue.value.promptRevision.None?)
  }

  /** The newest revision is the number of prompts the session was given; a start knows which one it applied last. */
  ghost predicate GivenAgrees(d: Director) {
    && (d.playback.Some? ==> 0 < |d.given| == d.playback.value.revision)
    && (d.launch.Some? && d.launch.value.phase.Applied? ==>
          && |d.given| == d.launch.value.phase.revision
          && GivenAt(d, d.launch.value.phase.revision, d.launch.value.phase.prompt))
    && (d.launch.Some? && d.launch.value.phase.Reapplying? ==> 0 < |d.given| == d.launch.value.phase.lastRevision)
  }

  /** A cue bound to a revision is what the session was given under it; a return, and idle, is the idle prompt. */
  ghost predicate PromptsAgree(d: Director) {
    && (d.cue.Some? && d.cue.value.promptRevision.Some? ==>
          GivenAt(d, d.cue.value.promptRevision.value, d.cue.value.prompt))
    && (d.cue.Some? && d.cue.value.phase == PlayingPhase ==> d.cue.value.promptRevision.Some?)
    && (d.cue.Some? && d.cue.value.phase == ReturningPhase ==>
          d.cue.value.idleRevision.Some? && GivenAt(d, d.cue.value.idleRevision.value, d.idlePrompt))
    && (d.state == IdleState ==> GivenAt(d, |d.given|, d.idlePrompt))
  }

  /** No cue is bound, and nothing is reported active, without a stream that goes on. */
  ghost predicate NothingLeftOver(d: Director) {
    && (!d.started ==> d.playback.None? && d.launch.None? && Loose(d) && !Active(d.state))
    && (d.launch.Some? ==> Loose(d) && !Active(d.state))
    && (!d.stop && d.enabled && d.playback.None? ==> Loose(d) && !Active(d.state))
    && (!d.stop && d.playback.Some? && d.playback.value.stopReason.Some? ==> Loose(d) && !Active(d.state))
  }

  ghost predicate Shown(d: Director) {
    GivenAgrees(d) && PromptsAgree(d) && NothingLeftOver(d)
  }

  lemma AttachmentKeepsShown(d: Director, e: Event)
    requires Agreement(d) && Shown(d) && (e.StartEvent? || e.AttachEvent? || e.DetachEvent?)
    ensures Shown(Step(d, e))
  {
  }

  lemma StopsKeepShown(d: Director, e: Event)
    requires Agreement(d) && Shown(d) && (e.HaltEvent? || e.ShutdownEvent? || e.FailEvent?)
    ensures Shown(Step(d, e))
  {
  }

  lemma SubmitKeepsShown(d: Director, c: Cue, promptOk: bool, now: real)
    requires Agreement(d) && Shown(d) && c.phase == PreparingPhase && c.promptRevision.None?
    ensures Shown(SubmitCue(d, c, promptOk, now))
  {
  }

  lemma PlaybackKeepsShown(d: Director, e: Event)
    requires Agreement(d) && Shown(d) && Possible(d, e) && (e.PlaybackEvent? || e.PlaybackEndEvent?)
    ensures Shown(Step(d, e))
  {
  }

  lemma FinishKeepsShown(d: Director)
    requires Agreement(d) && Shown(d)
    ensures Shown(FinishStream(d))
  {
  }

  lemma IssueKeepsShown(d: Director)
    requires Shown(d) && d.launch.None? && d.playback.None? && d.enabled && !d.stop && d.started && d.session.Some?
    ensures Shown(Issue(d))
  {
  }

  lemma PassKeepsShown(d: Director, now: real, completed: nat, promptOk: bool)
    requires Agreement(d) && Shown(d)
    ensures Shown(ManagerPass(d, now, completed, promptOk))
  {
    FinishKeepsShown(d);
    var f := FinishStream(d);
    if d.launch.None? && d.started && f.playback.None? && f.enabled && !f.stop && f.session.Some? {
      IssueKeepsShown(f);
    }
  }

  /** Giving up a start touches neither the session nor the cue it was given, except that the cue may be dropped. */
  lemma GivingUpKeepsShown(d: Director, n: Director)
    requires Shown(d) && d.launch.Some? && n.launch.None? && n.given == d.given && n.playback == d.playback
    requires n.idlePrompt == d.idlePrompt && n.started == d.started && n.stop == d.stop && (n.enabled ==> d.enabled)
    requires (n.cue == d.cue || n.cue.None?) && (n.state == d.state || !Active(n.state))
    ensures Shown(n)
  {
  }

  lemma DropKeepsShown(d: Director, state: DirectorState)
    requires Shown(d) && d.launch.Some? && !Active(state)
    ensures Shown(DropLease(d).(state := state))
  {
    GivingUpKeepsShown(d, DropLease(d).(state := state));
  }

  lemma LaunchFailsKeepsShown(d: Director)
    requires Shown(d) && d.launch.Some?
    ensures Shown(LaunchFails(d))
  {
    GivingUpKeepsShown(d, LaunchFails(d));
  }

  lemma EndsKeepShown(d: Director, ok: bool)
    requires Shown(d) && d.launch.Some?
    ensures Shown(LaunchAuthorized(d, ok)) && Shown(LaunchAborted(d))
  {
    LaunchFailsKeepsShown(d);
    DropKeepsShown(d, if d.enabled then WaitingOutput else Halted);
  }

  lemma OpenedKeepsShown(d: Director, ok: bool)
    requires Agreement(d) && Shown(d) && d.launch.Some?
    ensures Shown(LaunchOpened(d, ok))
  {
    LaunchFailsKeepsShown(d);
  }

  lemma ReappliedKeepsShown(d: Director, ok: bool)
    requires Agreement(d) && Shown(d) && d.launch.Some?
    ensures Shown(LaunchReapplied(d, ok))
  {
    LaunchFailsKeepsShown(d);
  }

  lemma BeginKeepsShown(d: Director, now: real)
    requires Agreement(d) && Shown(d) && d.launch.Some? && d.launch.value.phase.Applied? && StillCurrent(d)
    requires DesiredPrompt(d) == d.launch.value.phase.prompt
    ensures Shown(BeginPlayback(d, d.launch.value.phase.revision, now))
  {
  }

  lemma ReconcileKeepsShown(d: Director, now: real)
    requires Agreement(d) && Shown(d)
    ensures Shown(LaunchReconciles(d, now))
  {
    if d.launch.Some? && d.launch.value.phase.Applied? && StillCurrent(d)
       && DesiredPrompt(d) == d.launch.value.phase.prompt {
      BeginKeepsShown(d, now);
    }
  }

  lemma StepKeepsShown(d: Director, e: Event)
    requires Agreement(d) && Shown(d) && Possible(d, e)
    ensures Shown(Step(d, e))
  {
    match e
    case StartEvent => AttachmentKeepsShown(d, e);
    case AttachEvent(_) => AttachmentKeepsShown(d, e);
    case DetachEvent(_) => AttachmentKeepsShown(d, e);
    case HaltEvent => StopsKeepShown(d, e);
    case ShutdownEvent => StopsKeepShown(d, e);
    case FailEvent => StopsKeepShown(d, e);
    case SubmitEvent(id, prompt, duration, finite, ok, now) =>
      SubmitKeepsShown(d, NewCue(id, prompt, duration, finite), ok, now);
    case SubmitIdleEvent(id, prompt, duration, finite, ok, now) =>
      SubmitKeepsShown(d, NewCue(id, prompt, duration, finite), ok, now);
    case PlaybackEvent(_, _) => PlaybackKeepsShown(d, e);
    case PlaybackEndEvent(_) => PlaybackKeepsShown(d, e);
    case ManagerEvent(now, completed, ok) => PassKeepsShown(d, now, completed, ok);
    case ExitEvent =>
    case ReconcileEvent(now) => ReconcileKeepsShown(d, now);
    case AuthorizedEvent(ok) => if d.launch.Some? { EndsKeepShown(d, ok); }
    case AbortedEvent => if d.launch.Some? { EndsKeepShown(d, true); }
    case OpenedEvent(ok) => if d.launch.Some? { OpenedKeepsShown(d, ok); }
    case ReappliedEvent(ok) => if d.launch.Some? { ReappliedKeepsShown(d, ok); }
  }

  lemma {:induction false} RunKeepsShown(d: Director, es: seq<Event>)
    requires Invariant(d) && Shown(d) && PossibleRun(d, es)
    ensures Invariant(Run(d, es)) && Shown(Run(d, es))
    decreases |es|
  {
    if es != [] {
      StepKeepsInvariant(d, es[0]);
      StepKeepsShown(d, es[0]);
      RunKeepsShown(Step(d, es[0]), es[1..]);
    }
  }

  /** Reached by some run from the start. */
  ghost predicate Reachable(idlePrompt: string, timeout: real, es: seq<Event>, d: Director) {
    PossibleRun(New(idlePrompt, timeout), es) && d == Run(New(idlePrompt, timeout), es)
  }

  lemma ReachableIsShown(idlePrompt: string, timeout: real, es: seq<Event>, d: Director)
    requires Reachable(idlePrompt, timeout, es, d)
    ensures Invariant(d) && Shown(d)
  {
    NewIsSound(idlePrompt, timeout);
    RunKeepsShown(New(idlePrompt, timeout), es);
  }

  // ---- Main results ----

  /**
   In every reachable state a cue bound to a revision is the prompt the session was given under it; a return, and
   idle, is the idle prompt. So CUE is reported only while the prompt of that very cue plays, and IDLE only on idle.
   */
  lemma BoundMeansGiven(idlePrompt: string, timeout: real, es: seq<Event>, d: Director)
    requires Reachable(idlePrompt, timeout, es, d)
    ensures d.cue.Some? && d.cue.value.promptRevision.Some? ==>
              GivenAt(d, d.cue.value.promptRevision.value, d.cue.value.prompt)
    ensures d.cue.Some? && d.cue.value.phase == ReturningPhase ==>
              d.cue.value.idleRevision.Some? && GivenAt(d, d.cue.value.idleRevision.value, d.idlePrompt)
    ensures d.state == CueState ==> d.cue.Some? && d.cue.value.promptRevision.Some?
    ensures d.state == CueState && d.playback.Some? ==> GivenAt(d, |d.given|, d.cue.value.prompt)
    ensures d.state == IdleState ==> GivenAt(d, |d.given|, d.idlePrompt)
    ensures d.playback.Some? ==> |d.given| == d.playback.value.revision
  {
    ReachableIsShown(idlePrompt, timeout, es, d);
  }

  /** A playback event turns the status to CUE, or to IDLE, only when it reports the prompt of the cue, or idle. */
  lemma StatusFollowsThePrompt(idlePrompt: string, timeout: real, es: seq<Event>, d: Director, revision: nat, at: real)
    requires Reachable(idlePrompt, timeout, es, d) && Possible(d, PlaybackEvent(revision, at))
    ensures
      var n := PlaybackStarted(d, revision, at);
      && (n.state == CueState && d.state != CueState ==> n.cue.Some? && GivenAt(d, revision, n.cue.value.prompt))
      && (n.state == IdleState && d.state != IdleState ==> n.cue.None? && GivenAt(d, revision, d.idlePrompt))
  {
    ReachableIsShown(idlePrompt, timeout, es, d);
  }
}
