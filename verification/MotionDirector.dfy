/** The director object: fields updated under its condition lock, proved against DirectorModel. */
module MotionDirector {
  import opened Contracts
  import opened CueModel
  import opened MotionCue
  import opened DirectorModel

  class MotionDirector {
    const idlePrompt: string
    const timeout: real
    var started: bool
    var stop: bool
    var exited: bool
    var enabled: bool
    var session: Option<string>
    var leaseToken: nat
    var lease: Option<nat>
    var fence: Option<nat>
    var playback: Option<Playback>
    var cue: MotionCue?
    var launch: Option<Launch>
    var state: DirectorState
    ghost var issued: seq<Issued>
    /** The prompts handed to the session of the current stream. */
    ghost var given: seq<string>

    ghost function Model(): Director
      reads this, cue
    {
      Director(idlePrompt, timeout, started, stop, exited, enabled, session, leaseToken, lease, fence, playback,
               if cue == null then None else Some(cue.Model()), launch, state, issued, given)
    }

    constructor (idlePrompt: string, timeout: real)
      requires timeout > 0.0
      ensures Model() == New(idlePrompt, timeout)
    {
      this.idlePrompt, this.timeout := idlePrompt, timeout;
      started, stop, exited, enabled := false, false, false, false;
      session, leaseToken, lease, fence := None, 0, None, None;
      playback, cue, launch, state, issued, given := None, null, None, Stopped, [], [];
    }

    method AttachOutputSession(sessionId: string)
      modifies this`session, this`state
      ensures Model() == Attach(old(Model()), sessionId)
    {
      if started && session.None? {
        session := Some(sessionId);
        state := if enabled then Starting else Halted;
      }
    }

    method DetachOutputSession(sessionId: string) returns (detached: bool)
      modifies this
      ensures Model() == Detach(old(Model()), sessionId)
      ensures detached <==> old(session) == Some(sessionId)
    {
      if session != Some(sessionId) {
        return false;
      }
      session := None;
      cue := null;
      RequestStreamStopLocked(DetachedStop);
      state := if lease.Some? then Stopping else if enabled then WaitingOutput else Halted;
      return true;
    }

    /** Returns the token to neutralize once the lock is released, if a stream had to be fenced. */
    method HaltLocked() returns (neutralize: Option<nat>)
      modifies this
      ensures Model() == Halt(old(Model()))
      ensures neutralize == if old(started && lease.Some? && fence.None?) then fence else None
    {
      if !started {
        return None;
      }
      neutralize := FenceStreamLocked();
      enabled := false;
      cue := null;
      RequestStreamStopLocked(HaltedStop);
      state := if lease.Some? then Stopping else Halted;
    }

    method FailStreamLocked() returns (neutralize: Option<nat>)
      modifies this
      ensures Model() == FailStream(old(Model()))
      ensures neutralize == if old(lease.Some? && fence.None?) then fence else None
    {
      neutralize := FenceStreamLocked();
      enabled := false;
      cue := null;
      if playback.Some? {
        playback := Some(playback.value.(error := true));
        RequestStreamStopLocked(FailedStop);
      }
      state := Stopping;
    }

    method FenceStreamLocked() returns (token: Option<nat>)
      modifies this`leaseToken, this`fence, this`issued
      ensures leaseToken == FenceStream(old(Model())).leaseToken && fence == FenceStream(old(Model())).fence
      ensures issued == FenceStream(old(Model())).issued
      ensures token == if old(lease.Some? && fence.None?) then fence else None
    {
      if lease.None? || fence.Some? {
        return None;
      }
      leaseToken := (if leaseToken > lease.value then leaseToken else lease.value) + 1;
      fence := Some(leaseToken);
      issued := issued + [FenceIssued(leaseToken, lease.value)];
      return fence;
    }

    method RequestStreamStopLocked(reason: StopReason)
      modifies this`playback
      ensures playback == RequestStop(old(playback), reason)
    {
      if playback.Some? && playback.value.stopReason.None? {
        playback := Some(playback.value.(stopReason := Some(reason)));
      }
    }

    method SubmitCue(actionId: string, prompt: string, duration: real, finite: bool, promptOk: bool, now: real)
      requires timeout > 0.0
      modifies this
      ensures Model() ==
              DirectorModel.SubmitCue(old(Model()), NewCue(actionId, prompt, duration, finite), promptOk, now)
    {
      if !started {
        return;
      }
      enabled := true;
      var submitted := new MotionCue(actionId, prompt, duration, finite);
      cue := submitted;
      var active := state in {IdleState, PreparingCue, CueState, ReturningIdle};
      if active && playback.Some? && fence.None? && session.Some? {
        PromptLocked(promptOk, now);
      } else {
        state := if playback.Some? then Stopping else if session.Some? then Starting else WaitingOutput;
      }
    }

    /** Hand the new cue to the running stream; it stays unbound when the session refuses its prompt. */
    method PromptLocked(promptOk: bool, now: real)
      requires timeout > 0.0 && playback.Some? && cue != null
      modifies this`playback, this`state, this`given, cue
      ensures Model() == Prompted(old(Model()), promptOk, now)
    {
      if promptOk {
        playback := Some(playback.value.(revision := playback.value.revision + 1));
        given := given + [cue.prompt];
        var bound := cue.BindPromptRevision(playback.value.revision, now, timeout);
      }
      state := PreparingCue;
    }

    method OnPromptPlaybackStarted(revision: nat, startedAt: real)
      modifies this, cue
      ensures Model() == PlaybackStarted(old(Model()), revision, startedAt)
    {
      if cue == null {
        return;
      }
      var seen := cue.ObservePlayback(revision, startedAt);
      match seen {
        case CueStarted =>
          state := CueState;
        case IdleStarted =>
          cue := null;
          state := IdleState;
        case Ignored =>
      }
    }

    method FinishStreamIfDoneLocked()
      modifies this`playback, this`lease, this`fence, this`enabled, this`state
      ensures Model() == FinishStream(old(Model()))
    {
      if playback.None? || playback.value.alive {
        return;
      }
      var p := playback.value;
      playback, lease, fence := None, None, None;
      if stop {
        return;
      }
      if p.error && p.stopReason == Some(FailedStop) {
        enabled, state := false, FailedState;
      } else if p.stopReason.None? {
        enabled, state := false, FailedState;
      } else {
        state := if enabled then WaitingOutput else Halted;
      }
    }

    /** One pass of the manager loop; `true` when a stream start was decided and must be authorized next. */
    method ManagerPass(now: real, completedRevision: nat, promptOk: bool) 
      returns (start: bool, failed: bool)
      requires timeout > 0.0
      modifies this, cue
      ensures Model() == DirectorModel.ManagerPass(old(Model()), now, completedRevision, promptOk)
      ensures start <==> old(launch).None? && launch.Some?
      ensures failed <==> PassFails(old(Model()), now, completedRevision, promptOk)
    {
      if launch.Some? || exited || !started {
        return false, false;
      }
      FinishStreamIfDoneLocked();
      if stop && playback.None? {
        exited := true;
        return false, false;
      }
      if cue != null {
        if cue.HasTimedOut(now) {
          return false, true;
        }
        var completed := cue.completionDriven && cue.phase == PlayingPhase
          && playback.Some? && cue.promptRevision == Some(completedRevision);
        if cue.HasExpired(now) || completed {
          if playback.None? || fence.Some? || !promptOk {
            return false, true;
          }
          ReturnToIdleLocked(now);
        }
      }
      if playback.None? && enabled && session.Some? {
        IssueLocked();
        return true, false;
      }
      return false, false;
    }

    method ReturnToIdleLocked(now: real)
      requires timeout > 0.0 && playback.Some? && cue != null && cue.phase == PlayingPhase
      modifies this`playback, this`state, this`given, cue
      ensures Model() == ReturnToIdle(old(Model()), now)
    {
      playback := Some(playback.value.(revision := playback.value.revision + 1));
      given := given + [idlePrompt];
      var returning := cue.BeginReturnToIdle(playback.value.revision, now, timeout);
      state := ReturningIdle;
    }

    method IssueLocked()
      requires session.Some?
      modifies this`leaseToken, this`lease, this`fence, this`issued, this`launch, this`state
      ensures Model() == Issue(old(Model()))
    {
      var prompt := if cue != null then cue.prompt else idlePrompt;
      var cueId := if cue != null then Some(cue.actionId) else None;
      assert prompt == DesiredPrompt(Model()) && cueId == DesiredCue(Model());
      leaseToken := leaseToken + 1;
      lease, fence := Some(leaseToken), None;
      issued := issued + [LeaseIssued(leaseToken)];
      launch := Some(Launch(session.value, leaseToken, prompt, cueId, Authorizing));
      state := Starting;
    }

    /** The section after the unlocked authorize call: go on only if nothing overtook this stream. */
    method StreamAuthorized(ok: bool)
      modifies this
      ensures Model() == LaunchAuthorized(old(Model()), ok)
    {
      if launch.None? || !launch.value.phase.Authorizing? {
        return;
      }
      if !ok {
        StreamStartFailed();
      } else if enabled && !stop && session == Some(launch.value.session)
             && lease == Some(launch.value.lease) && fence.None? {
        launch := Some(launch.value.(phase := Opening));
      } else {
        DropLeaseLocked();
        state := if enabled then WaitingOutput else Halted;
      }
    }

    /** Begin playback once the prompt applied to the session is the one wanted now; otherwise apply again or abort. */
    method ReconcileStream(now: real)
      requires timeout > 0.0
      requires launch.Some? && launch.value.phase.Applied? ==> launch.value.phase.revision > 0
      modifies this, cue
      ensures Model() == LaunchReconciles(old(Model()), now)
    {
      if launch.None? || !launch.value.phase.Applied? {
        return;
      }
      var l := launch.value;
      var prompt := if cue != null then cue.prompt else idlePrompt;
      var cueId := if cue != null then Some(cue.actionId) else None;
      if !(enabled && !stop && session == Some(l.session) && lease == Some(l.lease) && fence.None?) {
        launch := Some(l.(phase := Aborting));
      } else if prompt != l.phase.prompt || cueId != l.phase.cueId {
        launch := Some(l.(phase := Reapplying(l.phase.revision, prompt, cueId)));
      } else {
        if cue != null {
          var bound := cue.BindPromptRevision(l.phase.revision, now, timeout);
        }
        launch := None;
        playback := Some(Playback(l.phase.revision, true, None, false));
        state := if cue != null then PreparingCue else IdleState;
      }
    }

    method StreamAborted()
      modifies this
      ensures Model() == LaunchAborted(old(Model()))
    {
      if launch.Some? && launch.value.phase.Aborting? {
        DropLeaseLocked();
        state := if enabled then WaitingOutput else Halted;
      }
    }

    method StreamStartFailed()
      requires launch.Some?
      modifies this
      ensures Model() == LaunchFails(old(Model()))
    {
      var l := launch.value;
      DropLeaseLocked();
      if enabled && session == Some(l.session) && !stop {
        enabled, cue, state := false, null, FailedState;
      } else if !enabled {
        state := Halted;
      } else if session.None? {
        state := WaitingOutput;
      }
    }

    method DropLeaseLocked()
      requires launch.Some?
      modifies this`lease, this`fence, this`launch
      ensures Model() == DropLease(old(Model()))
    {
      if lease == Some(launch.value.lease) {
        lease, fence := None, None;
      }
      launch := None;
    }
  }
}
