/** The mutable cue record, proved against CueModel. */
module MotionCue {
  import opened Contracts
  import opened CueModel

  class MotionCue {
    const actionId: string
    const prompt: string
    const duration: real
    const completionDriven: bool
    var phase: CuePhase
    var promptRevision: Option<nat>
    var prepareDeadline: Option<real>
    var started: Option<real>
    var playbackDeadline: Option<real>
    var idleRevision: Option<nat>
    var idleDeadline: Option<real>

    ghost function Model(): Cue
      reads this
    {
      Cue(actionId, prompt, duration, completionDriven, phase, promptRevision,
          prepareDeadline, started, playbackDeadline, idleRevision, idleDeadline)
    }

    constructor (actionId: string, prompt: string, duration: real, completionDriven: bool)
      ensures Model() == NewCue(actionId, prompt, duration, completionDriven)
    {
      this.actionId, this.prompt, this.duration, this.completionDriven := actionId, prompt, duration, completionDriven;
      phase, promptRevision, prepareDeadline, started := PreparingPhase, None, None, None;
      playbackDeadline, idleRevision, idleDeadline := None, None, None;
    }

    /** A zero revision or a timeout that is not positive is refused and changes nothing. */
    method BindPromptRevision(revision: nat, now: real, timeout: real) returns (ok: bool)
      modifies this
      ensures ok <==> revision > 0 && timeout > 0.0
      ensures Model() == if ok then Bind(old(Model()), revision, now, timeout) else old(Model())
    {
      if revision == 0 || timeout <= 0.0 {
        return false;
      }
      phase := PreparingPhase;
      promptRevision := Some(revision);
      prepareDeadline := Some(now + timeout);
      started, playbackDeadline, idleRevision, idleDeadline := None, None, None, None;
      return true;
    }

    method BeginReturnToIdle(revision: nat, now: real, timeout: real) returns (ok: bool)
      modifies this
      ensures ok <==> old(phase) == PlayingPhase && revision > 0 && timeout > 0.0
      ensures Model() == if ok then BeginReturn(old(Model()), revision, now, timeout) else old(Model())
    {
      if phase != PlayingPhase || revision == 0 || timeout <= 0.0 {
        return false;
      }
      phase := ReturningPhase;
      idleRevision := Some(revision);
      idleDeadline := Some(now + timeout);
      return true;
    }

    method ObservePlayback(revision: nat, startedAt: real) returns (seen: Observation)
      modifies this
      ensures (Model(), seen) == Observe(old(Model()), revision, startedAt)
    {
      if phase == PreparingPhase && promptRevision == Some(revision) {
        phase := PlayingPhase;
        prepareDeadline := None;
        started := Some(startedAt);
        playbackDeadline := Some(startedAt + duration);
        return CueStarted;
      }
      if phase == ReturningPhase && idleRevision == Some(revision) {
        return IdleStarted;
      }
      return Ignored;
    }

    /** The cue, or the return to idle, did not reach the output in time. */
    predicate HasTimedOut(now: real): (late: bool)
      reads this
      ensures late == TimedOut(Model(), now)
    {
      if phase == PreparingPhase then prepareDeadline.Some? && now >= prepareDeadline.value
      else phase == ReturningPhase && idleDeadline.Some? && now >= idleDeadline.value
    }

    predicate HasExpired(now: real): (over: bool)
      reads this
      ensures over == PlaybackExpired(Model(), now)
    {
      phase == PlayingPhase && !completionDriven && playbackDeadline.Some? && now >= playbackDeadline.value
    }
  }
}
