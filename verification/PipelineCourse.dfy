/** What becomes of an utterance in each situation, and what is counted for it. */
module PipelineCourse {
  import opened Contracts
  import opened TurnModel
  import opened PipelineModel
  import opened PipelineRuns

  // ---- The counters ----

  /** How many jobs a run removes with one of these outcomes. */
  function Removed(s: Pipeline, es: seq<Event>, outcomes: set<Status>): nat
    decreases |es|
  {
    if es == [] then 0 else (if Removes(s, es[0], outcomes) then 1 else 0) + Removed(Step(s, es[0]), es[1..], outcomes)
  }

  predicate Removes(s: Pipeline, e: Event, outcomes: set<Status>) {
    && e.FinishEvent? && e.job in s.jobs && s.jobs[e.job].phase.Ended?
    && s.jobs[e.job].phase.status.Some? && s.jobs[e.job].phase.status.value in outcomes
  }

  function Launched(es: seq<Event>): nat
    decreases |es|
  {
    if es == [] then 0 else (if es[0].LaunchEvent? then 1 else 0) + Launched(es[1..])
  }

  lemma StepCounts(s: Pipeline, e: Event)
    ensures
      var n := Step(s, e);
      && n.detected == s.detected + (if e.LaunchEvent? then 1 else 0)
      && n.completed == s.completed + (if Removes(s, e, {Applied, FastStopRequested}) then 1 else 0)
      && n.failed == s.failed + (if Removes(s, e, {Failed}) then 1 else 0)
      && n.superseded == s.superseded + (if Removes(s, e, {Superseded}) then 1 else 0)
  {
  }

  /**
   Every utterance is counted once as detected; completed counts exactly the jobs removed after acting, or after a fast
   stop, failed and superseded exactly those removed with that outcome.
   */
  lemma {:induction false} CountersCountTheirOutcomes(s: Pipeline, es: seq<Event>)
    ensures
      var n := Run(s, es);
      && n.detected == s.detected + Launched(es)
      && n.completed == s.completed + Removed(s, es, {Applied, FastStopRequested})
      && n.failed == s.failed + Removed(s, es, {Failed})
      && n.superseded == s.superseded + Removed(s, es, {Superseded})
    decreases |es|
  {
    if es != [] {
      StepCounts(s, es[0]);
      CountersCountTheirOutcomes(Step(s, es[0]), es[1..]);
    }
  }

  // ---- An undisturbed job ----

  /** How the environment behaves towards a job that nothing disturbs. */
  datatype Story =
    | EverythingWorks
    | NothingHeard
    | StopAsked
    | StopRaises
    | RecognizerRaises
    | ReportRaises
    | ViewIsStale
    | PlannerRaises
    | PlanIsInvalid
    | DevicesRaise

  function Choices(story: Story): seq<Choice> {
    match story
    case EverythingWorks => [Proceeds, Proceeds, Proceeds, Proceeds, Proceeds, Proceeds, Proceeds]
    case NothingHeard => [Proceeds, Proceeds, Proceeds, EmptyTranscript, Proceeds]
    case StopAsked => [Proceeds, Proceeds, Proceeds, StopWord, Proceeds]
    case StopRaises => [Proceeds, Proceeds, Proceeds, StopWord, Raises, Proceeds]
    case RecognizerRaises => [Raises, Proceeds]
    case ReportRaises => [Raises, Raises]
    case ViewIsStale => [Proceeds, Proceeds, Proceeds, Proceeds, StaleObservation]
    case PlannerRaises => [Proceeds, Proceeds, Proceeds, Proceeds, Raises, Proceeds]
    case PlanIsInvalid => [Proceeds, Proceeds, Proceeds, Proceeds, Proceeds, InvalidPlan, Proceeds]
    case DevicesRaise => [Proceeds, Proceeds, Proceeds, Proceeds, Proceeds, Proceeds, Raises]
  }

  /** A stop that raises has used up its turn, so its failure is reported as superseded. */
  function Outcome(recordOnly: bool, story: Story): Status {
    match story
    case EverythingWorks => if recordOnly then Planned else Applied
    case StopAsked => FastStopRequested
    case StopRaises => Superseded
    case ViewIsStale => Superseded
    case _ => Failed
  }


  /** What becomes of the turn. */
  datatype Use = Kept | Spent | Acted

  function Used(t: Turns, token: Token, use: Use): Turns {
    match use
    case Kept => t
    case Spent => t.(pending := None, consumed := t.consumed + [token])
    case Acted => t.(pending := None, consumed := t.consumed + [token], effects := t.effects + [token])
  }

  /** The turn acts when the devices, or the executors to be halted, were addressed; a stale view leaves it current. */
  function UseOf(story: Story): Use {
    match story
    case EverythingWorks => Acted
    case StopAsked => Acted
    case StopRaises => Acted
    case DevicesRaise => Acted
    case ViewIsStale => Kept
    case ReportRaises => Kept
    case _ => Spent
  }

  function Play(s: Pipeline, j: nat, choices: seq<Choice>): Pipeline
    decreases |choices|
  {
    if choices == [] then s else Play(Work(s, j, choices[0]), j, choices[1..])
  }

  /** The newest job stands at this phase, with its turn current, and everything else is as in `base`. */
  ghost predicate Stands(base: Pipeline, s: Pipeline, j: nat, token: Token, phase: Phase, handled: bool) {
    && s == base.(active := if handled then base.active + {token} else base.active,
                  jobs := base.jobs[j := Job(token, phase)])
    && base.turns.pending == Some(token) && base.latestAdmitted == j && token !in base.active
  }

  lemma PlayOne(s: Pipeline, j: nat, c: Choice, rest: seq<Choice>)
    ensures Play(s, j, [c] + rest) == Play(Work(s, j, c), j, rest)
  {
    assert ([c] + rest)[1..] == rest;
  }

  lemma PlayThree(s: Pipeline, j: nat, a: Choice, b: Choice, c: Choice, rest: seq<Choice>)
    ensures Play(s, j, [a, b, c] + rest) == Play(Work(Work(Work(s, j, a), j, b), j, c), j, rest)
  {
    assert [a, b, c] + rest == [a] + ([b] + ([c] + rest));
    PlayOne(s, j, a, [b] + ([c] + rest));
    PlayOne(Work(s, j, a), j, b, [c] + rest);
    PlayOne(Work(Work(s, j, a), j, b), j, c, rest);
  }

  /** Heard, admitted, entered: the job is about to be handled. */
  lemma ReachesChecking(base: Pipeline, s: Pipeline, j: nat, token: Token)
    requires Stands(base, s, j, token, Transcribing, false)
    ensures Stands(base, Work(Work(Work(s, j, Proceeds), j, Proceeds), j, Proceeds), j, token, Checking, true)
  {
    var heard := Work(s, j, Proceeds);
    assert Stands(base, heard, j, token, Admitting, false);
    var admitted := Work(heard, j, Proceeds);
    assert Stands(base, admitted, j, token, Entering, false);
  }

  /** What the job leaves behind: its outcome, nothing being handled for it, and what it did with its turn. */
  ghost predicate EndsAs(base: Pipeline, n: Pipeline, j: nat, token: Token, status: Status, use: Use) {
    n == base.(jobs := base.jobs[j := Job(token, Ended(Some(status)))], turns := Used(base.turns, token, use))
  }

  lemma NothingHeardFails(base: Pipeline, k: Pipeline, j: nat, token: Token)
    requires Stands(base, k, j, token, Checking, true)
    ensures EndsAs(base, Play(k, j, [EmptyTranscript, Proceeds]), j, token, Failed, Spent)
  {
    var claiming := Work(k, j, EmptyTranscript);
    assert Stands(base, claiming, j, token, ClaimingEmpty, true);
    PlayOne(k, j, EmptyTranscript, [Proceeds]);
    PlayOne(claiming, j, Proceeds, []);
  }

  lemma StopStops(base: Pipeline, k: Pipeline, j: nat, token: Token)
    requires Stands(base, k, j, token, Checking, true)
    ensures EndsAs(base, Play(k, j, [StopWord, Proceeds]), j, token, FastStopRequested, Acted)
    ensures EndsAs(base, Play(k, j, [StopWord, Raises, Proceeds]), j, token, Superseded, Acted)
  {
    var stopping := Work(k, j, StopWord);
    assert Stands(base, stopping, j, token, Stopping, true);
    PlayOne(k, j, StopWord, [Proceeds]);
    PlayOne(stopping, j, Proceeds, []);
    PlayOne(k, j, StopWord, [Raises, Proceeds]);
    PlayOne(stopping, j, Raises, [Proceeds]);
    PlayOne(Work(stopping, j, Raises), j, Proceeds, []);
  }

  lemma ThinkingCanEnd(base: Pipeline, k: Pipeline, j: nat, token: Token)
    requires Stands(base, k, j, token, Checking, true)
    ensures EndsAs(base, Play(k, j, [Proceeds, StaleObservation]), j, token, Superseded, Kept)
    ensures EndsAs(base, Play(k, j, [Proceeds, Raises, Proceeds]), j, token, Failed, Spent)
  {
    var thinking := Work(k, j, Proceeds);
    assert Stands(base, thinking, j, token, Thinking, true);
    PlayOne(k, j, Proceeds, [StaleObservation]);
    PlayOne(thinking, j, StaleObservation, []);
    PlayOne(k, j, Proceeds, [Raises, Proceeds]);
    PlayOne(thinking, j, Raises, [Proceeds]);
    assert Stands(base, Work(thinking, j, Raises), j, token, BrainFailed, true);
    PlayOne(Work(thinking, j, Raises), j, Proceeds, []);
  }

  lemma ReachesRechecking(base: Pipeline, k: Pipeline, j: nat, token: Token, rest: seq<Choice>)
    requires Stands(base, k, j, token, Checking, true)
    ensures Stands(base, Work(Work(k, j, Proceeds), j, Proceeds), j, token, Rechecking, true)
    ensures Play(k, j, [Proceeds, Proceeds] + rest) == Play(Work(Work(k, j, Proceeds), j, Proceeds), j, rest)
  {
    assert Stands(base, Work(k, j, Proceeds), j, token, Thinking, true);
    assert [Proceeds, Proceeds] + rest == [Proceeds] + ([Proceeds] + rest);
    PlayOne(k, j, Proceeds, [Proceeds] + rest);
    PlayOne(Work(k, j, Proceeds), j, Proceeds, rest);
  }

  lemma InvalidPlanFails(base: Pipeline, r: Pipeline, j: nat, token: Token)
    requires Stands(base, r, j, token, Rechecking, true)
    ensures EndsAs(base, Play(r, j, [InvalidPlan, Proceeds]), j, token, Failed, Spent)
  {
    PlayOne(r, j, InvalidPlan, [Proceeds]);
    assert Stands(base, Work(r, j, InvalidPlan), j, token, PlanRejected, true);
    PlayOne(Work(r, j, InvalidPlan), j, Proceeds, []);
  }

  lemma DispatchActs(base: Pipeline, r: Pipeline, j: nat, token: Token)
    requires Stands(base, r, j, token, Rechecking, true)
    ensures
      EndsAs(base, Play(r, j, [Proceeds, Proceeds]), j, token, if base.recordOnly then Planned else Applied, Acted)
    ensures EndsAs(base, Play(r, j, [Proceeds, Raises]), j, token, Failed, Acted)
  {
    var dispatching := Work(r, j, Proceeds);
    assert Stands(base, dispatching, j, token, Dispatching, true);
    PlayOne(r, j, Proceeds, [Proceeds]);
    PlayOne(dispatching, j, Proceeds, []);
    PlayOne(r, j, Proceeds, [Raises]);
    PlayOne(dispatching, j, Raises, []);
  }

  lemma DeafJobFails(base: Pipeline, s: Pipeline, j: nat, token: Token)
    requires Stands(base, s, j, token, Transcribing, false)
    ensures EndsAs(base, Play(s, j, [Raises, Proceeds]), j, token, Failed, Spent)
    ensures EndsAs(base, Play(s, j, [Raises, Raises]), j, token, Failed, Kept)
  {
    PlayOne(s, j, Raises, [Proceeds]);
    PlayOne(s, j, Raises, [Raises]);
    assert Stands(base, Work(s, j, Raises), j, token, Reporting, false);
    PlayOne(Work(s, j, Raises), j, Proceeds, []);
    PlayOne(Work(s, j, Raises), j, Raises, []);
  }

  lemma LateStoryEnds(base: Pipeline, s: Pipeline, j: nat, token: Token, story: Story)
    requires Stands(base, s, j, token, Checking, true)
    requires story == EverythingWorks || story == DevicesRaise || story == PlanIsInvalid
    ensures EndsAs(base, Play(s, j, Choices(story)[3..]), j, token, Outcome(base.recordOnly, story), UseOf(story))
  {
    var tail := Choices(story)[5..];
    assert Choices(story)[3..] == [Proceeds, Proceeds] + tail;
    ReachesRechecking(base, s, j, token, tail);
    var r := Work(Work(s, j, Proceeds), j, Proceeds);
    InvalidPlanFails(base, r, j, token);
    DispatchActs(base, r, j, token);
    assert story == EverythingWorks ==> tail == [Proceeds, Proceeds];
    assert story == DevicesRaise ==> tail == [Proceeds, Raises];
    assert story == PlanIsInvalid ==> tail == [InvalidPlan, Proceeds];
  }

  /**
   The newest job, left undisturbed, ends as its story says: what it hears, whether a stop is asked for, and what
   raises decide its outcome and what it does with its turn; and nothing else is left changed.
   */
  lemma UndisturbedJobEnds(base: Pipeline, s: Pipeline, j: nat, token: Token, story: Story)
    requires Stands(base, s, j, token, Transcribing, false)
    ensures EndsAs(base, Play(s, j, Choices(story)), j, token, Outcome(base.recordOnly, story), UseOf(story))
  {
    if story == RecognizerRaises || story == ReportRaises {
      DeafJobFails(base, s, j, token);
    } else {
      ReachesChecking(base, s, j, token);
      var k := Work(Work(Work(s, j, Proceeds), j, Proceeds), j, Proceeds);
      assert Choices(story) == [Proceeds, Proceeds, Proceeds] + Choices(story)[3..];
      PlayThree(s, j, Proceeds, Proceeds, Proceeds, Choices(story)[3..]);
      if story == EverythingWorks || story == DevicesRaise || story == PlanIsInvalid {
        LateStoryEnds(base, k, j, token, story);
      } else {
        EarlyStoryEnds(base, k, j, token, story);
      }
    }
  }

  lemma EarlyStoryEnds(base: Pipeline, k: Pipeline, j: nat, token: Token, story: Story)
    requires Stands(base, k, j, token, Checking, true)
    requires story in {NothingHeard, StopAsked, StopRaises, ViewIsStale, PlannerRaises}
    ensures EndsAs(base, Play(k, j, Choices(story)[3..]), j, token, Outcome(base.recordOnly, story), UseOf(story))
  {
    match story
    case NothingHeard =>
      assert Choices(story)[3..] == [EmptyTranscript, Proceeds];
      NothingHeardFails(base, k, j, token);
    case StopAsked =>
      assert Choices(story)[3..] == [StopWord, Proceeds];
      StopStops(base, k, j, token);
    case StopRaises =>
      assert Choices(story)[3..] == [StopWord, Raises, Proceeds];
      StopStops(base, k, j, token);
    case ViewIsStale =>
      assert Choices(story)[3..] == [Proceeds, StaleObservation];
      ThinkingCanEnd(base, k, j, token);
    case PlannerRaises =>
      assert Choices(story)[3..] == [Proceeds, Raises, Proceeds];
      ThinkingCanEnd(base, k, j, token);
  }

  /** A new utterance makes its job the newest one, with its turn current. */
  lemma LaunchStands(s: Pipeline, id: string)
    requires Token(id, s.turns.version + 1) !in s.active
    ensures
      var n := Launch(s, id);
      Stands(n, n, s.nextJob, Token(id, s.turns.version + 1), Transcribing, false) && n.detected == s.detected + 1
  {
  }

  // ---- An overtaken job ----

  /** Once its turn is no longer current, a job's next check or action ends it as superseded, without an effect. */
  lemma OvertakenJobEndsSuperseded(s: Pipeline, j: nat, c: Choice)
    requires j in s.jobs && s.turns.pending != Some(s.jobs[j].token) && !c.Dies?
    requires s.jobs[j].phase in {Checking, Stopping, BrainFailed, Rechecking, PlanRejected, Dispatching}
             || (s.jobs[j].phase == Reporting && !c.Raises?)
    ensures
      var n := Work(s, j, c);
      && n.jobs[j] == Job(s.jobs[j].token, Ended(Some(Superseded))) && n.turns == s.turns
      && n.active == s.active - {s.jobs[j].token}
  {
  }

  /** Only the newest utterance is admitted, and a turn that is being handled already is not entered again. */
  lemma OlderUtteranceIsNotAdmitted(s: Pipeline, j: nat, c: Choice)
    requires j in s.jobs && !c.Dies?
    ensures s.jobs[j].phase == Admitting && j != s.latestAdmitted ==>
              Work(s, j, c) == s.(jobs := s.jobs[j := Job(s.jobs[j].token, Ended(Some(Superseded)))])
    ensures s.jobs[j].phase == Entering && s.jobs[j].token in s.active ==>
              Work(s, j, c) == s.(jobs := s.jobs[j := Job(s.jobs[j].token, Ended(Some(Superseded)))])
  {
  }

  // ---- What is being handled ----

  predicate Handling(phase: Phase) {
    phase in {Checking, ClaimingEmpty, Stopping, Thinking, BrainFailed, Rechecking, PlanRejected, Dispatching}
  }

  /** Every job has a turn of its own, and a turn is marked as being handled exactly while its job handles it. */
  ghost predicate Tracked(s: Pipeline) {
    && (forall j | j in s.jobs :: j < s.nextJob && s.jobs[j].token.version <= s.turns.version)
    && (forall i, j | i in s.jobs && j in s.jobs && i != j :: s.jobs[i].token.version != s.jobs[j].token.version)
    && (forall t | t in s.active :: t.version <= s.turns.version)
    && (forall j | j in s.jobs :: s.jobs[j].token in s.active <==> Handling(s.jobs[j].phase))
  }

  /** It is enough to look at the job that worked. */
  lemma OneMarkKeepsTracked(s: Pipeline, n: Pipeline, j: nat)
    requires Tracked(s) && j in s.jobs && n.jobs.Keys == s.jobs.Keys && n.jobs[j].token == s.jobs[j].token
    requires forall k | k in s.jobs && k != j :: n.jobs[k] == s.jobs[k]
    requires n.nextJob == s.nextJob && n.turns.version == s.turns.version
    requires n.active - {s.jobs[j].token} == s.active - {s.jobs[j].token}
    requires s.jobs[j].token in n.active <==> Handling(n.jobs[j].phase)
    ensures Tracked(n)
  {
    forall i | i in n.jobs ensures n.jobs[i].token in n.active <==> Handling(n.jobs[i].phase) {
      if i != j {
        assert s.jobs[i].token != s.jobs[j].token;
        assert s.jobs[i].token in n.active - {s.jobs[j].token} <==> s.jobs[i].token in s.active - {s.jobs[j].token};
      }
    }
    forall t | t in n.active ensures t.version <= n.turns.version {
      if t != s.jobs[j].token { assert t in n.active - {s.jobs[j].token}; }
    }
  }

  lemma WorkKeepsTracked(s: Pipeline, j: nat, c: Choice)
    requires Tracked(s) && j in s.jobs
    ensures Tracked(Work(s, j, c))
  {
    WorkChangesOnlyThePhase(s, j, c);
    OnlyItsOwnTurn(s, j, c);
    OneMarkKeepsTracked(s, Work(s, j, c), j);
  }

  /** A section touches the marks of its own turn alone, and leaves it marked exactly if it goes on handling. */
  predicate OwnMark(active: set<Token>, token: Token, r: Section) {
    r.active - {token} == active - {token} && (token in r.active <==> Handling(r.phase))
  }

  lemma EndingsMark(t: Turns, active: set<Token>, token: Token, status: Status, raises: bool, onRaise: Phase)
    requires !Handling(onRaise)
    ensures OwnMark(active, token, End(t, active, token, status))
    ensures OwnMark(active, token, ClaimThenFail(t, active, token))
    ensures OwnMark(active, token, ApplyThenEnd(t, active, token, status, raises, onRaise))
  {
  }

  lemma SectionMarks(s: Pipeline, j: nat, token: Token, phase: Phase, c: Choice)
    requires !phase.Ended? && (token in s.active <==> Handling(phase))
    ensures OwnMark(s.active, token, Handle(s, j, token, phase, c))
    ensures Handle(s, j, token, phase, c).turns.version == s.turns.version
  {
    EndingsMark(s.turns, s.active, token, FastStopRequested, true, if c.Raises? then Reporting else Ended(None));
    EndingsMark(s.turns, s.active, token, if s.recordOnly then Planned else Applied, true,
                Ended(if c.Raises? then Some(Failed) else None));
  }

  lemma OnlyItsOwnTurn(s: Pipeline, j: nat, c: Choice)
    requires Tracked(s) && j in s.jobs
    ensures
      var n, token := Work(s, j, c), s.jobs[j].token;
      && n.turns.version == s.turns.version
      && n.active - {token} == s.active - {token}
      && (token in n.active <==> Handling(n.jobs[j].phase))
  {
    if !s.jobs[j].phase.Ended? { SectionMarks(s, j, s.jobs[j].token, s.jobs[j].phase, c); }
  }

  lemma LaunchKeepsTracked(s: Pipeline, id: string)
    requires Tracked(s)
    ensures Tracked(Launch(s, id))
  {
    assert Token(id, s.turns.version + 1) !in s.active;
  }

  lemma FinishKeepsTracked(s: Pipeline, j: nat)
    requires Tracked(s)
    ensures Tracked(PipelineModel.Finish(s, j))
  {
  }

  lemma StepKeepsTracked(s: Pipeline, e: Event)
    requires Tracked(s)
    ensures Tracked(Step(s, e))
  {
    match e
    case LaunchEvent(id) => LaunchKeepsTracked(s, id);
    case FinishEvent(j) => FinishKeepsTracked(s, j);
    case WorkEvent(j, c) => if j in s.jobs { WorkKeepsTracked(s, j, c); }
    case _ =>
  }

  /** In every run each turn is handled by at most one job, and is marked as handled exactly while that job is at it. */
  lemma {:induction false} HandlingIsExclusive(s: Pipeline, es: seq<Event>)
    requires Tracked(s)
    ensures Tracked(Run(s, es))
    decreases |es|
  {
    if es != [] {
      StepKeepsTracked(s, es[0]);
      HandlingIsExclusive(Step(s, es[0]), es[1..]);
    }
  }
}
