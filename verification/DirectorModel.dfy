/**
 The motion director: one persistent pose stream under one fenced lease. Every transition is one
 lock-held section; the unlocked output calls (authorize a stream lease, neutralize a fence token) are
 issued by the section that decides them and may be processed at any later time, in any order.
 */
module DirectorModel {
  import opened Contracts
  import opened CueModel

  datatype DirectorState =
    | Stopped | WaitingOutput | Starting | IdleState | PreparingCue
    | CueState | ReturningIdle | Stopping | Halted | FailedState

  datatype StopReason = HaltedStop | DetachedStop | FailedStop | ShutdownStop

  /** The playback thread of the current stream; `revision` is the newest prompt revision its session issued. */
  datatype Playback = Playback(revision: nat, alive: bool, stopReason: Option<StopReason>, error: bool)

  /** How far the manager is in starting a stream. */
  datatype LaunchPhase =
    | Authorizing
    | Opening
    | Applied(revision: nat, prompt: string, cueId: Option<string>)
    | Reapplying(lastRevision: nat, nextPrompt: string, nextCueId: Option<string>)
    | Aborting

  datatype Launch = Launch(session: string, lease: nat, prompt: string, cueId: Option<string>, phase: LaunchPhase)

  /** A token issued by the director: for a stream lease, or to fence one. */
  datatype Issued = LeaseIssued(token: nat) | FenceIssued(token: nat, lease: nat)

  /** `given` remembers the prompts the current pose session was given: the one of revision `r` is `given[r - 1]`. */
  datatype Director = Director(
    idlePrompt: string,
    timeout: real,
    started: bool,
    stop: bool,
    exited: bool,
    enabled: bool,
    session: Option<string>,
    leaseToken: nat,
    lease: Option<nat>,
    fence: Option<nat>,
    playback: Option<Playback>,
    cue: Option<Cue>,
    launch: Option<Launch>,
    state: DirectorState,
    issued: seq<Issued>,
    given: seq<string>)

  function New(idlePrompt: string, timeout: real): Director {
    Director(idlePrompt, timeout, false, false, false, false, None, 0, None, None, None, None, None, Stopped, [], [])
  }

  /** No token was issued, and the stream lease was kept or given up. */
  predicate SameTokens(d: Director, n: Director) {
    n.issued == d.issued && n.leaseToken == d.leaseToken
    && (n.lease.None? || (n.lease == d.lease && n.fence == d.fence))
  }

  predicate Active(state: DirectorState) {
    state in {IdleState, PreparingCue, CueState, ReturningIdle}
  }

  function DesiredPrompt(d: Director): string {
    if d.cue.Some? then d.cue.value.prompt else d.idlePrompt
  }

  function DesiredCue(d: Director): Option<string> {
    if d.cue.Some? then Some(d.cue.value.actionId) else None
  }

  // ---- Session and stop requests ----

  function Start(d: Director): (n: Director)
    ensures SameTokens(d, n)
  {
    if d.started || d.stop then d
    else d.(started := true, enabled := true, state := WaitingOutput)
  }

  function Attach(d: Director, session: string): (n: Director)
    ensures SameTokens(d, n)
  {
    if !d.started || d.session.Some? then d
    else d.(session := Some(session), state := if d.enabled then Starting else Halted)
  }

  function RequestStop(p: Option<Playback>, reason: StopReason): Option<Playback> {
    if p.None? || p.value.stopReason.Some? then p else Some(p.value.(stopReason := Some(reason)))
  }

  function Detach(d: Director, session: string): (n: Director)
    ensures SameTokens(d, n)
  {
    if d.session != Some(session) then d
    else
      d.(session := None,
         cue := None,
         playback := RequestStop(d.playback, DetachedStop),
         state := if d.lease.Some? then Stopping else if d.enabled then WaitingOutput else Halted)
  }

  /** A stream lease is fenced once: with a token above the lease and above everything issued so far. */
  function FenceStream(d: Director): Director {
    if d.lease.None? || d.fence.Some? then d
    else
      var token := (if d.leaseToken > d.lease.value then d.leaseToken else d.lease.value) + 1;
      d.(leaseToken := token, fence := Some(token), issued := d.issued + [FenceIssued(token, d.lease.value)])
  }

  function Halt(d: Director): Director {
    if !d.started then d
    else
      var fenced := FenceStream(d);
      fenced.(enabled := false,
              cue := None,
              playback := RequestStop(d.playback, HaltedStop),
              state := if d.lease.Some? then Stopping else Halted)
  }

  function Shutdown(d: Director): (n: Director)
    ensures SameTokens(d, n)
  {
    if !d.started then d else d.(stop := true, playback := RequestStop(d.playback, ShutdownStop))
  }

  function FailStream(d: Director): Director {
    var fenced := FenceStream(d);
    var failing := if d.playback.None? then None else Some(d.playback.value.(error := true));
    fenced.(enabled := false, cue := None, playback := RequestStop(failing, FailedStop), state := Stopping)
  }

  // ---- Cues ----

  predicate CanPrompt(d: Director) {
    d.playback.Some? && d.fence.None? && d.session.Some? && Active(d.state)
  }

  /** `promptOk` is false when the session refuses the new prompt. */
  function Prompted(d: Director, promptOk: bool, now: real): (n: Director)
    requires d.playback.Some? && d.cue.Some?
    ensures SameTokens(d, n)
  {
    if promptOk then
      var revision := d.playback.value.revision + 1;
      d.(playback := Some(d.playback.value.(revision := revision)),
         given := d.given + [d.cue.value.prompt],
         cue := Some(Bind(d.cue.value, revision, now, d.timeout)),
         state := PreparingCue)
    else d.(state := PreparingCue)
  }

  function SubmitCue(d: Director, c: Cue, promptOk: bool, now: real): (n: Director)
    ensures SameTokens(d, n)
  {
    if !d.started then d
    else
      var submitted := d.(enabled := true, cue := Some(c));
      if CanPrompt(d) then Prompted(submitted, promptOk, now)
      else submitted.(
        state := if d.playback.Some? then Stopping else if d.session.Some? then Starting else WaitingOutput)
  }

  function SubmitIdleCue(d: Director, c: Cue, promptOk: bool, now: real): (n: Director)
    ensures SameTokens(d, n)
  {
    if !d.enabled || d.session.None? || d.state != IdleState || d.cue.Some? then d
    else SubmitCue(d, c, promptOk, now)
  }

  function PlaybackStarted(d: Director, revision: nat, startedAt: real): (n: Director)
    ensures SameTokens(d, n)
  {
    if d.cue.None? then d
    else
      var (cue, seen) := Observe(d.cue.value, revision, startedAt);
      match seen
      case CueStarted => d.(cue := Some(cue), state := CueState)
      case IdleStarted => d.(cue := None, state := IdleState)
      case Ignored => d
  }

  function PlaybackEnds(d: Director, error: bool): (n: Director)
    ensures SameTokens(d, n)
  {
    if d.playback.None? then d
    else d.(playback := Some(d.playback.value.(alive := false, error := d.playback.value.error || error)))
  }

  // ---- The manager loop ----

  function FinishStream(d: Director): (n: Director)
    ensures SameTokens(d, n)
  {
    if d.playback.None? || d.playback.value.alive then d
    else
      var p := d.playback.value;
      var cleared := d.(playback := None, lease := None, fence := None);
      if d.stop then cleared
      else if (p.error && p.stopReason == Some(FailedStop)) || p.stopReason.None? then
        cleared.(enabled := false, state := FailedState)
      else cleared.(state := if d.enabled then WaitingOutput else Halted)
  }

  predicate CueIsOver(d: Director, now: real, completedRevision: nat) {
    d.cue.Some? &&
    var c := d.cue.value;
    || PlaybackExpired(c, now)
    || (c.completionDriven && c.phase == PlayingPhase && d.playback.Some?
        && c.promptRevision == Some(completedRevision))
  }

  function ReturnToIdle(d: Director, now: real): Director
    requires d.playback.Some? && d.cue.Some? && d.cue.value.phase == PlayingPhase
  {
    var revision := d.playback.value.revision + 1;
    d.(playback := Some(d.playback.value.(revision := revision)),
       given := d.given + [d.idlePrompt],
       cue := Some(BeginReturn(d.cue.value, revision, now, d.timeout)),
       state := ReturningIdle)
  }

  function Issue(d: Director): Director
    requires d.session.Some?
  {
    var token := d.leaseToken + 1;
    d.(leaseToken := token,
       lease := Some(token),
       fence := None,
       issued := d.issued + [LeaseIssued(token)],
       launch := Some(Launch(d.session.value, token, DesiredPrompt(d), DesiredCue(d), Authorizing)),
       state := Starting)
  }

  /**
   One pass of the manager: reap a finished stream, move an ended cue towards idle, start a stream.
   A pass that finds a problem changes nothing; `FailStream` follows as its own section.
   */
  function ManagerPass(d0: Director, now: real, completedRevision: nat, promptOk: bool): Director {
    if d0.launch.Some? || d0.exited || !d0.started then d0
    else
      var d := FinishStream(d0);
      if d.stop && d.playback.None? then d.(exited := true)
      else if d.cue.Some? && TimedOut(d.cue.value, now) then d
      else if CueIsOver(d, now, completedRevision) && (d.playback.None? || d.fence.Some? || !promptOk) then d
      else
        var e := if CueIsOver(d, now, completedRevision) then ReturnToIdle(d, now) else d;
        if e.playback.None? && e.enabled && e.session.Some? then Issue(e) else e
  }

  /** The pass found a problem: a cue or its return was not shown in time, or the way back to idle is barred. */
  predicate PassFails(d0: Director, now: real, completedRevision: nat, promptOk: bool) {
    d0.launch.None? && !d0.exited && d0.started &&
    var d := FinishStream(d0);
    && (!d.stop || d.playback.Some?)
    && ((d.cue.Some? && TimedOut(d.cue.value, now))
        || (CueIsOver(d, now, completedRevision) && (d.playback.None? || d.fence.Some? || !promptOk)))
  }

  function ManagerExits(d: Director): (n: Director)
    ensures SameTokens(d, n)
  {
    if d.exited then d.(state := Stopped) else d
  }

  // ---- Starting a stream ----

  predicate StillCurrent(d: Director)
    requires d.launch.Some?
  {
    d.enabled && !d.stop && d.session == Some(d.launch.value.session)
    && d.lease == Some(d.launch.value.lease) && d.fence.None?
  }

  function DropLease(d: Director): (n: Director)
    requires d.launch.Some?
    ensures SameTokens(d, n)
  {
    if d.lease == Some(d.launch.value.lease) then d.(lease := None, fence := None, launch := None)
    else d.(launch := None)
  }

  function LaunchFails(d: Director): (n: Director)
    requires d.launch.Some?
    ensures SameTokens(d, n)
  {
    var dropped := DropLease(d);
    if d.enabled && d.session == Some(d.launch.value.session) && !d.stop then
      dropped.(enabled := false, cue := None, state := FailedState)
    else if !d.enabled then dropped.(state := Halted)
    else if d.session.None? then dropped.(state := WaitingOutput)
    else dropped
  }

  function LaunchAuthorized(d: Director, ok: bool): (n: Director)
    ensures SameTokens(d, n)
  {
    if d.launch.None? || !d.launch.value.phase.Authorizing? then d
    else if !ok then LaunchFails(d)
    else if StillCurrent(d) then d.(launch := Some(d.launch.value.(phase := Opening)))
    else DropLease(d).(state := if d.enabled then WaitingOutput else Halted)
  }

  /** The session has been built and started, with its first revision; no lock is held. */
  function LaunchOpened(d: Director, ok: bool): (n: Director)
    ensures SameTokens(d, n)
  {
    if d.launch.None? || !d.launch.value.phase.Opening? then d
    else if !ok then LaunchFails(d)
    else
      var l := d.launch.value;
      d.(launch := Some(l.(phase := Applied(1, l.prompt, l.cueId))), given := [l.prompt])
  }

  /** The cue that is wanted now is bound to the revision its prompt was applied under. */
  function BeginPlayback(d: Director, revision: nat, now: real): (n: Director)
    ensures SameTokens(d, n)
  {
    d.(launch := None,
       playback := Some(Playback(revision, true, None, false)),
       cue := if d.cue.Some? then Some(Bind(d.cue.value, revision, now, d.timeout)) else None,
       state := if d.cue.Some? then PreparingCue else IdleState)
  }

  function LaunchReconciles(d: Director, now: real): (n: Director)
    ensures SameTokens(d, n)
  {
    if d.launch.None? || !d.launch.value.phase.Applied? then d
    else
      var l := d.launch.value;
      if !StillCurrent(d) then d.(launch := Some(l.(phase := Aborting)))
      else if DesiredPrompt(d) != l.phase.prompt || DesiredCue(d) != l.phase.cueId then
        d.(launch := Some(l.(phase := Reapplying(l.phase.revision, DesiredPrompt(d), DesiredCue(d)))))
      else BeginPlayback(d, l.phase.revision, now)
  }

  function LaunchReapplied(d: Director, ok: bool): (n: Director)
    ensures SameTokens(d, n)
  {
    if d.launch.None? || !d.launch.value.phase.Reapplying? then d
    else if !ok then LaunchFails(d)
    else
      var l := d.launch.value;
      d.(launch := Some(l.(phase := Applied(l.phase.lastRevision + 1, l.phase.nextPrompt, l.phase.nextCueId))),
         given := d.given + [l.phase.nextPrompt])
  }

  function LaunchAborted(d: Director): (n: Director)
    ensures SameTokens(d, n)
  {
    if d.launch.None? || !d.launch.value.phase.Aborting? then d
    else DropLease(d).(state := if d.enabled then WaitingOutput else Halted)
  }
}
