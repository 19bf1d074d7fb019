/** How a stream starts, how a cue runs its course on it, and what keeps another stream from starting. */
module DirectorCourse {
  import opened Contracts
  import opened CueModel
  import opened DirectorModel
  import opened DirectorRuns
  import opened DirectorPrompts

  // ---- Starting ----

  /** A started director with an output session: the manager issues a lease, and the authorized session is built. */
  function Opened(d: Director, now: real): Director {
    LaunchOpened(LaunchAuthorized(ManagerPass(d, now, 0, true), true), true)
  }

  predicate ReadyToStart(d: Director) {
    && d.started && !d.stop && !d.exited && d.enabled && d.session.Some?
    && d.launch.None? && d.playback.None? && d.cue.None?
  }

  /** A director that is started and attached is ready to start a stream, once its first session is there. */
  lemma NewDirectorIsReady(idlePrompt: string, timeout: real, session: string)
    ensures ReadyToStart(Attach(Start(New(idlePrompt, timeout)), session))
  {
  }

  /** Without a cue the stream starts on the idle prompt, under a fresh lease, and the director reports IDLE. */
  lemma StartReachesIdle(d: Director, now: real)
    requires ReadyToStart(d)
    ensures
      var n := LaunchReconciles(Opened(d, now), now);
      && n.state == IdleState && n.given == [d.idlePrompt] && n.cue.None? && n.launch.None?
      && n.playback == Some(Playback(1, true, None, false))
      && n.lease == Some(d.leaseToken + 1) && n.fence.None? && n.issued == d.issued + [LeaseIssued(d.leaseToken + 1)]
  {
  }

  /**
   A cue submitted while the stream is starting is applied to the session before playback begins, and bound to the
   revision it is applied under.
   */
  lemma OvertakenStartAppliesTheCue(
      d: Director, now: real, id: string, prompt: string, duration: real, finite: bool, promptOk: bool)
    requires ReadyToStart(d)
    ensures
      var wanted := SubmitCue(Opened(d, now), NewCue(id, prompt, duration, finite), promptOk, now);
      var again := LaunchReapplied(LaunchReconciles(wanted, now), true);
      var n := LaunchReconciles(again, now);
      && LaunchReconciles(wanted, now).playback.None?
      && n.state == PreparingCue && n.given == [d.idlePrompt, prompt]
      && n.playback == Some(Playback(2, true, None, false))
      && n.cue.Some? && n.cue.value.actionId == id && n.cue.value.promptRevision == Some(2)
  {
    assert [d.idlePrompt] + [prompt] == [d.idlePrompt, prompt];
  }

  // ---- The course of a cue ----

  /** A playing cue remembers when it began, and ends its duration later. */
  ghost predicate Timed(d: Director) {
    d.cue.Some? && d.cue.value.phase == PlayingPhase ==>
      && d.cue.value.started.Some?
      && d.cue.value.playbackDeadline == Some(d.cue.value.started.value + d.cue.value.duration)
  }

  lemma PassKeepsTimed(d: Director, now: real, completed: nat, promptOk: bool)
    requires Timed(d)
    ensures Timed(ManagerPass(d, now, completed, promptOk))
  {
    assert FinishStream(d).cue == d.cue;
  }

  lemma FailureKeepsTimed(d: Director)
    requires Timed(d) && d.launch.Some?
    ensures Timed(LaunchFails(d))
  {
  }

  lemma AuthorizedKeepsTimed(d: Director, ok: bool)
    requires Timed(d)
    ensures Timed(LaunchAuthorized(d, ok))
  {
    if d.launch.Some? { FailureKeepsTimed(d); }
  }

  lemma OpenedKeepsTimed(d: Director, ok: bool)
    requires Timed(d)
    ensures Timed(LaunchOpened(d, ok))
  {
    if d.launch.Some? { FailureKeepsTimed(d); }
  }

  lemma ReappliedKeepsTimed(d: Director, ok: bool)
    requires Timed(d)
    ensures Timed(LaunchReapplied(d, ok))
  {
    if d.launch.Some? { FailureKeepsTimed(d); }
  }

  lemma SubmitKeepsTimed(d: Director, c: Cue, promptOk: bool, now: real)
    requires Timed(d) && c.phase == PreparingPhase
    ensures Timed(SubmitCue(d, c, promptOk, now))
  {
  }

  lemma ReconcileKeepsTimed(d: Director, now: real)
    requires Timed(d)
    ensures Timed(LaunchReconciles(d, now))
  {
  }

  lemma StepKeepsTimed(d: Director, e: Event)
    requires Timed(d)
    ensures Timed(Step(d, e))
  {
    match e
    case ManagerEvent(now, completed, ok) => PassKeepsTimed(d, now, completed, ok);
    case AuthorizedEvent(ok) => AuthorizedKeepsTimed(d, ok);
    case OpenedEvent(ok) => OpenedKeepsTimed(d, ok);
    case ReappliedEvent(ok) => ReappliedKeepsTimed(d, ok);
    case SubmitEvent(id, prompt, duration, finite, ok, now) =>
      SubmitKeepsTimed(d, NewCue(id, prompt, duration, finite), ok, now);
    case SubmitIdleEvent(id, prompt, duration, finite, ok, now) =>
      SubmitKeepsTimed(d, NewCue(id, prompt, duration, finite), ok, now);
    case ReconcileEvent(now) => ReconcileKeepsTimed(d, now);
    case _ =>
  }

  lemma {:induction false} RunKeepsTimed(d: Director, es: seq<Event>)
    requires Timed(d)
    ensures Timed(Run(d, es))
    decreases |es|
  {
    if es != [] {
      StepKeepsTimed(d, es[0]);
      RunKeepsTimed(Step(d, es[0]), es[1..]);
    }
  }

  predicate Streaming(d: Director) {
    d.started && !d.exited && d.launch.None? && d.playback.Some? && d.playback.value.alive && d.fence.None?
  }

  /** The duration of a playing cue is over, or its finite clip was completed. */
  predicate Over(c: Cue, now: real, completed: nat) {
    if c.completionDriven then c.promptRevision == Some(completed)
    else c.started.Some? && now >= c.started.value + c.duration
  }

  /** In every reachable state a pass of the manager sends a playing cue back to idle exactly when it is over. */
  lemma CueEndsOnTime(idlePrompt: string, timeout: real, es: seq<Event>, d: Director, now: real, completed: nat)
    requires Reachable(idlePrompt, timeout, es, d) && Streaming(d) && d.cue.Some? && d.cue.value.phase == PlayingPhase
    ensures
      var n := ManagerPass(d, now, completed, true);
      if Over(d.cue.value, now, completed) then
        && n.state == ReturningIdle && n.given == d.given + [d.idlePrompt]
        && n.cue.Some? && n.cue.value.phase == ReturningPhase && n.cue.value.idleRevision == Some(|n.given|)
      else n == d
  {
    RunKeepsTimed(New(idlePrompt, timeout), es);
    ReachableIsShown(idlePrompt, timeout, es, d);
  }

  /** A cue accepted by a running stream: its prompt is given to the session, and the cue begins when that plays. */
  lemma CueBegins(
      d: Director, id: string, prompt: string, duration: real, finite: bool, submitted: real, at: real)
    requires Shown(d) && Agreement(d) && Streaming(d) && CanPrompt(d)
    ensures
      var asked := SubmitCue(d, NewCue(id, prompt, duration, finite), true, submitted);
      var shown := PlaybackStarted(asked, |d.given| + 1, at);
      && asked.state == PreparingCue && asked.given == d.given + [prompt]
      && shown.state == CueState && shown.given == asked.given && Streaming(shown) && shown.idlePrompt == d.idlePrompt
      && shown.cue.Some? && shown.cue.value.actionId == id && shown.cue.value.phase == PlayingPhase
      && (Over(shown.cue.value, at + duration, |d.given| + 1))
      && (!finite ==> shown.cue.value.playbackDeadline == Some(at + duration))
      && shown.cue.value.completionDriven == finite && shown.cue.value.promptRevision == Some(|d.given| + 1)
  {
  }

  /** Its end is followed by the idle prompt, and idle is reported once that plays. */
  lemma CueReturns(d: Director, now: real, completed: nat)
    requires Streaming(d) && d.cue.Some? && d.cue.value.phase == PlayingPhase
    requires d.playback.value.revision == |d.given| && CueIsOver(d, now, completed)
    ensures
      var ended := ManagerPass(d, now, completed, true);
      var idle := PlaybackStarted(ended, |d.given| + 1, now);
      && ended.state == ReturningIdle && ended.given == d.given + [d.idlePrompt]
      && idle.state == IdleState && idle.cue.None? && idle.given == ended.given
  {
  }

  /**
   A cue accepted by a running stream: its prompt is given to the session; the director reports the cue once that
   prompt plays, the return once the cue is over, and idle once the idle prompt plays.
   */
  lemma CueRunsItsCourse(
      idlePrompt: string, timeout: real, es: seq<Event>, d: Director,
      id: string, prompt: string, duration: real, finite: bool, submitted: real, at: real, now: real, completed: nat)
    requires Reachable(idlePrompt, timeout, es, d) && Streaming(d) && CanPrompt(d)
    requires if finite then completed == |d.given| + 1 else now >= at + duration
    ensures
      var asked := SubmitCue(d, NewCue(id, prompt, duration, finite), true, submitted);
      var shown := PlaybackStarted(asked, |d.given| + 1, at);
      var ended := ManagerPass(shown, now, completed, true);
      var idle := PlaybackStarted(ended, |d.given| + 2, now);
      && asked.state == PreparingCue && asked.given == d.given + [prompt]
      && shown.state == CueState && shown.cue.Some? && shown.cue.value.actionId == id
      && ended.state == ReturningIdle && ended.given == asked.given + [d.idlePrompt]
      && idle.state == IdleState && idle.cue.None? && idle.given == ended.given
  {
    ReachableIsShown(idlePrompt, timeout, es, d);
    CueBegins(d, id, prompt, duration, finite, submitted, at);
    var asked := SubmitCue(d, NewCue(id, prompt, duration, finite), true, submitted);
    assert asked.playback.value.revision == |asked.given|;
    CueReturns(PlaybackStarted(asked, |d.given| + 1, at), now, completed);
  }

  /** A failed stream: fenced above its lease and asked to stop, its cue dropped, and no other one started. */
  ghost predicate Failing(d: Director, n: Director) {
    && !n.enabled && n.cue.None? && n.state == Stopping && n.lease == d.lease
    && n.playback.Some? && n.playback.value.stopReason.Some? && n.playback.value.error
    && (d.lease.Some? ==> n.fence.Some? && n.fence.value > d.lease.value)
  }

  /** A cue that a running stream does not show in time fails the stream, and no pass before that time does. */
  lemma UnshownCueFails(
      idlePrompt: string, timeout: real, es: seq<Event>, d: Director, id: string, prompt: string, duration: real,
      finite: bool, submitted: real, now: real, completed: nat, promptOk: bool)
    requires Reachable(idlePrompt, timeout, es, d) && Streaming(d) && CanPrompt(d)
    ensures
      var asked := SubmitCue(d, NewCue(id, prompt, duration, finite), true, submitted);
      && ManagerPass(asked, now, completed, promptOk) == asked
      && (PassFails(asked, now, completed, promptOk) <==> now >= submitted + d.timeout)
      && Failing(asked, FailStream(asked))
  {
  }

  /** So does a return to idle that is not shown in time, or that the session does not take when its cue is over. */
  lemma UnshownIdleFails(
      idlePrompt: string, timeout: real, es: seq<Event>, d: Director, over: real, now: real, completed: nat,
      promptOk: bool)
    requires Reachable(idlePrompt, timeout, es, d) && Streaming(d) && d.cue.Some? && d.cue.value.phase == PlayingPhase
    ensures PassFails(d, over, completed, promptOk) <==> Over(d.cue.value, over, completed) && !promptOk
    ensures !promptOk ==> ManagerPass(d, over, completed, promptOk) == d
    ensures
      var ended := ManagerPass(d, over, completed, true);
      Over(d.cue.value, over, completed) ==>
        && ManagerPass(ended, now, completed, promptOk) == ended
        && (PassFails(ended, now, completed, promptOk) <==> now >= over + d.timeout)
        && Failing(ended, FailStream(ended))
  {
    RunKeepsTimed(New(idlePrompt, timeout), es);
    ReachableIsShown(idlePrompt, timeout, es, d);
  }

  // ---- What keeps a stream from starting ----

  /** Shut down, or without an output session. */
  predicate Barred(d: Director) {
    d.stop || d.session.None?
  }

  ghost predicate StaysBarred(d: Director, n: Director) {
    && Barred(n) && (d.stop ==> n.stop)
    && (forall i :: |d.issued| <= i < |n.issued| ==> n.issued[i].FenceIssued?) && d.issued <= n.issued
    && (d.playback.None? ==> n.playback.None?)
  }

  lemma BarredPass(d: Director, now: real, completed: nat, ok: bool)
    requires Barred(d)
    ensures StaysBarred(d, ManagerPass(d, now, completed, ok))
  {
    assert SameTokens(d, FinishStream(d));
  }

  lemma BarredFailure(d: Director)
    requires Barred(d) && d.launch.Some?
    ensures StaysBarred(d, LaunchFails(d))
  {
  }

  lemma BarredAuthorized(d: Director, ok: bool)
    requires Barred(d)
    ensures StaysBarred(d, LaunchAuthorized(d, ok))
  {
    if d.launch.Some? { BarredFailure(d); }
  }

  lemma BarredApply(d: Director, ok: bool)
    requires Barred(d)
    ensures StaysBarred(d, LaunchOpened(d, ok)) && StaysBarred(d, LaunchReapplied(d, ok))
  {
  }

  lemma BarredReconcile(d: Director, now: real)
    requires Barred(d)
    ensures StaysBarred(d, LaunchReconciles(d, now))
  {
  }

  lemma BarredHalt(d: Director)
    requires Barred(d)
    ensures StaysBarred(d, Halt(d))
  {
  }

  lemma BarredFailing(d: Director)
    requires Barred(d)
    ensures StaysBarred(d, FailStream(d))
  {
  }

  lemma BarredStep(d: Director, e: Event)
    requires Barred(d) && (d.stop || !e.AttachEvent?)
    ensures StaysBarred(d, Step(d, e))
  {
    match e
    case ManagerEvent(now, completed, ok) => BarredPass(d, now, completed, ok);
    case AuthorizedEvent(ok) => BarredAuthorized(d, ok);
    case HaltEvent => BarredHalt(d);
    case FailEvent => BarredFailing(d);
    case OpenedEvent(ok) => BarredApply(d, ok);
    case ReappliedEvent(ok) => BarredApply(d, ok);
    case ReconcileEvent(now) => BarredReconcile(d, now);
    case _ =>
  }

  /**
   After a shutdown, or while no output session is attached, no stream lease is issued and no playback begins, whatever
   cues are submitted and however far a start had come.
   */
  lemma {:induction false} BarredDirectorStartsNothing(d: Director, es: seq<Event>)
    requires Barred(d) && (d.stop || forall e :: e in es ==> !e.AttachEvent?)
    ensures StaysBarred(d, Run(d, es))
    decreases |es|
  {
    if es != [] {
      assert d.stop || !es[0].AttachEvent?;
      BarredStep(d, es[0]);
      BarredDirectorStartsNothing(Step(d, es[0]), es[1..]);
    }
  }

  /** Detaching the attached session asks its stream to stop and drops the cue; a shutdown asks it to stop for good. */
  lemma LeavingAsksToStop(d: Director, session: string)
    ensures d.session == Some(session) ==>
      var n := Detach(d, session);
      Barred(n) && n.cue.None? && (d.playback.Some? ==> n.playback.Some? && n.playback.value.stopReason.Some?)
    ensures d.started ==>
      var n := Shutdown(d);
      n.stop && (d.playback.Some? ==> n.playback.Some? && n.playback.value.stopReason.Some?)
  {
  }

  // ---- Ending ----

  /** A halted stream that has ended leaves a halted director, which starts a new stream for the next cue. */
  lemma HaltedDirectorRestarts(d: Director, error: bool, now: real, id: string, prompt: string, duration: real)
    requires Streaming(d) && !d.stop && d.session.Some? && LeaseIsNewest(d)
    requires d.playback.value.stopReason.None?
    ensures
      var reaped := ManagerPass(PlaybackEnds(Halt(d), error), now, 0, true);
      var asked := SubmitCue(reaped, NewCue(id, prompt, duration, false), true, now);
      var again := ManagerPass(asked, now, 0, true);
      && reaped.state == Halted && reaped.playback.None? && reaped.lease.None? && reaped.cue.None?
      && asked.state == Starting && again.launch.Some? && again.launch.value.prompt == prompt
      && again.lease.Some? && again.lease.value > reaped.leaseToken
  {
  }

  /** A stream that ends although nobody asked it to leaves the director failed and disabled. */
  lemma UnexpectedEndFails(d: Director, error: bool, now: real)
    requires Streaming(d) && !d.stop && d.playback.value.stopReason.None?
    ensures
      var n := ManagerPass(PlaybackEnds(d, error), now, 0, true);
      n.state == FailedState && !n.enabled && n.playback.None? && n.lease.None? && n.issued == d.issued
  {
  }

  /**
   A start that fails while its stream is still wanted leaves the director failed: it owns no lease, and issues none and
   begins no playback until the next cue is submitted.
   */
  lemma FailedStartRests(d: Director, now: real, opening: bool, es: seq<Event>)
    requires ReadyToStart(d) && forall e :: e in es ==> !e.SubmitEvent?
    ensures
      var issued := ManagerPass(d, now, 0, true);
      var n := if opening then LaunchOpened(LaunchAuthorized(issued, true), false) else LaunchAuthorized(issued, false);
      && n.state == FailedState && !n.enabled && n.lease.None? && n.launch.None? && n.cue.None?
      && Run(n, es).issued == n.issued && Run(n, es).playback.None?
  {
    var issued := ManagerPass(d, now, 0, true);
    RunStaysDown(
      if opening then LaunchOpened(LaunchAuthorized(issued, true), false) else LaunchAuthorized(issued, false), es);
  }

  /** A shut-down director whose stream has ended exits, and only then reports STOPPED. */
  lemma ShutdownExits(d: Director, error: bool, now: real, completed: nat, promptOk: bool)
    requires d.started && !d.exited && d.launch.None?
    ensures
      var n := ManagerPass(PlaybackEnds(Shutdown(d), error), now, completed, promptOk);
      && n.exited && n.playback.None? && ManagerExits(n).state == Stopped
      && ManagerPass(n, now, completed, promptOk) == n
    ensures ManagerExits(d) == d
  {
  }

  // ---- Idle cues ----

  /** An idle cue displaces nothing: it is taken only while the director reports IDLE and has no cue. */
  lemma IdleCueYields(d: Director, c: Cue, promptOk: bool, now: real)
    requires d.state != IdleState || d.cue.Some? || d.session.None? || !d.enabled
    ensures SubmitIdleCue(d, c, promptOk, now) == d
  {
  }

  /** While the stream is idle, an idle cue is taken like any other. */
  lemma IdleCueBegins(
      idlePrompt: string, timeout: real, es: seq<Event>, d: Director,
      id: string, prompt: string, duration: real, finite: bool, now: real)
    requires Reachable(idlePrompt, timeout, es, d) && Streaming(d)
    requires d.state == IdleState && d.enabled && d.session.Some?
    ensures
      var n := SubmitIdleCue(d, NewCue(id, prompt, duration, finite), true, now);
      && n.state == PreparingCue && n.given == d.given + [prompt]
      && n.cue.Some? && n.cue.value.actionId == id && n.cue.value.promptRevision == Some(|n.given|)
  {
    ReachableIsShown(idlePrompt, timeout, es, d);
  }
}
