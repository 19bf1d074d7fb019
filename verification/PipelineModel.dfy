/**
 Utterance jobs over the turn fence. A job is a thread; every transition is one locked section of the audio
 pipeline, the runtime or the turn manager. What speech recognition, the planner and the device calls do is
 chosen freely by the environment, including raising.
 */
module PipelineModel {
  import opened Contracts
  import opened TurnModel

  datatype Status = Applied | Planned | FastStopRequested | Superseded | Failed

  /** Where a job is; `Ended(None)` is a job that died without an outcome. */
  datatype Phase =
    | Transcribing
    | Admitting
    | Entering
    | Checking
    | ClaimingEmpty
    | Stopping
    | Thinking
    | BrainFailed
    | Rechecking
    | PlanRejected
    | Dispatching
    | Reporting
    | Ended(status: Option<Status>)

  datatype Job = Job(token: Token, phase: Phase)

  /** What the environment does during a section; a job may die before it, or inside the effect itself. */
  datatype Choice =
    | Proceeds
    | Raises
    | Dies
    | DiesActing
    | EmptyTranscript
    | StopWord
    | StaleObservation
    | InvalidPlan

  datatype Pipeline = Pipeline(
    recordOnly: bool,
    turns: Turns,
    active: set<Token>,
    jobs: map<nat, Job>,
    nextJob: nat,
    latestAdmitted: nat,
    detected: nat,
    completed: nat,
    failed: nat,
    superseded: nat)

  function NewPipeline(recordOnly: bool): Pipeline {
    Pipeline(recordOnly, NO_TURNS, {}, map[], 1, 0, 0, 0, 0, 0)
  }

  function Launch(s: Pipeline, id: string): Pipeline {
    var (turns, token) := Begin(s.turns, id);
    s.(turns := turns, jobs := s.jobs[s.nextJob := Job(token, Transcribing)],
       latestAdmitted := s.nextJob, nextJob := s.nextJob + 1, detected := s.detected + 1)
  }

  /** What one section of a job leaves behind. */
  datatype Section = Section(turns: Turns, active: set<Token>, phase: Phase)

  function End(t: Turns, active: set<Token>, token: Token, status: Status): Section {
    Section(t, active - {token}, Ended(Some(status)))
  }

  /** A failure counts only for the turn that is still current; otherwise the job was superseded. */
  function ClaimThenFail(t: Turns, active: set<Token>, token: Token): Section {
    var (turns, ok) := Claim(t, token);
    End(turns, active, token, if ok then Failed else Superseded)
  }

  /** The one place where a turn acts: the effect and the end of the turn are one section. */
  function ApplyThenEnd(
      t: Turns, active: set<Token>, token: Token, status: Status, raises: bool, onRaise: Phase): Section {
    var (turns, ran) := Apply(t, token);
    if !ran then End(t, active, token, Superseded)
    else if raises then Section(turns, active - {token}, onRaise)
    else End(turns, active, token, status)
  }

  /** Only the newest utterance is admitted. */
  function Admit(s: Pipeline, j: nat): Section {
    Section(s.turns, s.active, if j == s.latestAdmitted then Entering else Ended(Some(Superseded)))
  }

  /** Each turn is handled by one job at a time; a duplicate is superseded and leaves the handling to the other. */
  function EnterTurn(t: Turns, active: set<Token>, token: Token): Section {
    if token in active then Section(t, active, Ended(Some(Superseded))) else Section(t, active + {token}, Checking)
  }

  /** One section of a job; raising inside handling goes to failure reporting. */
  function Handle(s: Pipeline, j: nat, token: Token, phase: Phase, c: Choice): Section
    requires !phase.Ended?
  {
    var t, active := s.turns, s.active;
    match phase
    case Transcribing => Section(t, active, if c.Raises? then Reporting else Admitting)
    case Admitting => Admit(s, j)
    case Entering => EnterTurn(t, active, token)
    case Checking =>
      if !IsCurrent(t, token) then End(t, active, token, Superseded)
      else Section(t, active, if c.EmptyTranscript? then ClaimingEmpty else if c.StopWord? then Stopping else Thinking)
    case ClaimingEmpty => End(Claim(t, token).0, active, token, Failed)
    case Stopping => ApplyThenEnd(t, active, token, FastStopRequested, c.Raises? || c.DiesActing?,
                                 if c.Raises? then Reporting else Ended(None))
    case Thinking =>
      if c.StaleObservation? then End(t, active, token, Superseded)
      else Section(t, active, if c.Raises? then BrainFailed else Rechecking)
    case BrainFailed => ClaimThenFail(t, active, token)
    case Rechecking =>
      if !IsCurrent(t, token) then End(t, active, token, Superseded)
      else Section(t, active, if c.InvalidPlan? then PlanRejected else Dispatching)
    case PlanRejected => ClaimThenFail(t, active, token)
    case Dispatching =>
      ApplyThenEnd(t, active, token, if s.recordOnly then Planned else Applied, c.Raises? || c.DiesActing?,
                   Ended(if c.Raises? then Some(Failed) else None))
    case Reporting =>
      if c.Raises? then End(t, active, token, Failed) else ClaimThenFail(t, active, token)
  }

  /** The environment may kill a job at any section. */
  function Work(s: Pipeline, j: nat, c: Choice): Pipeline {
    if j !in s.jobs || s.jobs[j].phase.Ended? then s
    else
      var token := s.jobs[j].token;
      var r := if c.Dies? then Section(s.turns, s.active - {token}, Ended(None))
        else Handle(s, j, token, s.jobs[j].phase, c);
      s.(turns := r.turns, active := r.active, jobs := s.jobs[j := Job(token, r.phase)])
  }

  /** A job leaves the table and is counted by its outcome; a plan, or no outcome, has no counter. */
  function Finish(s: Pipeline, j: nat): Pipeline {
    if j !in s.jobs || !s.jobs[j].phase.Ended? then s
    else
      var status := s.jobs[j].phase.status;
      var left := s.(jobs := s.jobs - {j});
      match status
      case Some(Applied) => left.(completed := s.completed + 1)
      case Some(FastStopRequested) => left.(completed := s.completed + 1)
      case Some(Failed) => left.(failed := s.failed + 1)
      case Some(Superseded) => left.(superseded := s.superseded + 1)
      case _ => left
  }
}
