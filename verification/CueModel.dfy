/** One body cue: prepared under a prompt revision, then playing, then returning to idle. */
module CueModel {
  import opened Contracts

  datatype CuePhase = PreparingPhase | PlayingPhase | ReturningPhase

  datatype Observation = Ignored | CueStarted | IdleStarted

  datatype Cue = Cue(
    actionId: string,
    prompt: string,
    duration: real,
    completionDriven: bool,
    phase: CuePhase,
    promptRevision: Option<nat>,
    prepareDeadline: Option<real>,
    started: Option<real>,
    playbackDeadline: Option<real>,
    idleRevision: Option<nat>,
    idleDeadline: Option<real>)

  function NewCue(actionId: string, prompt: string, duration: real, completionDriven: bool): Cue {
    Cue(actionId, prompt, duration, completionDriven, PreparingPhase, None, None, None, None, None, None)
  }

  function Bind(c: Cue, revision: nat, now: real, timeout: real): Cue {
    c.(phase := PreparingPhase,
       promptRevision := Some(revision),
       prepareDeadline := Some(now + timeout),
       started := None,
       playbackDeadline := None,
       idleRevision := None,
       idleDeadline := None)
  }

  function BeginReturn(c: Cue, revision: nat, now: real, timeout: real): Cue
    requires c.phase == PlayingPhase
  {
    c.(phase := ReturningPhase, idleRevision := Some(revision), idleDeadline := Some(now + timeout))
  }

  function Observe(c: Cue, revision: nat, startedAt: real): (Cue, Observation) {
    if c.phase == PreparingPhase && c.promptRevision == Some(revision) then
      (c.(phase := PlayingPhase,
          prepareDeadline := None,
          started := Some(startedAt),
          playbackDeadline := Some(startedAt + c.duration)), CueStarted)
    else if c.phase == ReturningPhase && c.idleRevision == Some(revision) then (c, IdleStarted)
    else (c, Ignored)
  }

  predicate Reached(deadline: Option<real>, now: real) {
    deadline.Some? && now >= deadline.value
  }

  /** The cue, or the return to idle, never showed up on the output. */
  predicate TimedOut(c: Cue, now: real) {
    || (c.phase == PreparingPhase && Reached(c.prepareDeadline, now))
    || (c.phase == ReturningPhase && Reached(c.idleDeadline, now))
  }

  predicate PlaybackExpired(c: Cue, now: real) {
    c.phase == PlayingPhase && !c.completionDriven && Reached(c.playbackDeadline, now)
  }

  function NextDeadline(c: Cue): Option<real> {
    match c.phase
    case PreparingPhase => c.prepareDeadline
    case PlayingPhase => if c.completionDriven then None else c.playbackDeadline
    case ReturningPhase => c.idleDeadline
  }

  /** The manager sleeps until the next deadline and then finds something to do: no wake-up is lost. */
  lemma NextDeadlineIsWhenSomethingHappens(c: Cue, now: real)
    ensures Reached(NextDeadline(c), now) <==> TimedOut(c, now) || PlaybackExpired(c, now)
  {
  }
}
