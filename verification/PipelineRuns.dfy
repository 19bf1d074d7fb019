/** Conservation of utterances and fencing of their effects, over every interleaving of jobs. */
module PipelineRuns {
  import opened Contracts
  import opened TurnModel
  import opened TurnRuns
  import opened PipelineModel

  /** Halts and turns begun elsewhere (an injected action payload) interleave with the jobs. */
  datatype Event =
    | LaunchEvent(id: string)
    | WorkEvent(job: nat, choice: Choice)
    | FinishEvent(job: nat)
    | HaltEvent
    | OtherTurn(id: string)

  function Step(s: Pipeline, e: Event): Pipeline {
    match e
    case LaunchEvent(id) => Launch(s, id)
    case WorkEvent(j, c) => Work(s, j, c)
    case FinishEvent(j) => Finish(s, j)
    case HaltEvent => s.(turns := Invalidate(s.turns))
    case OtherTurn(id) => s.(turns := Begin(s.turns, id).0)
  }

  function Run(s: Pipeline, es: seq<Event>): Pipeline
    decreases |es|
  {
    if es == [] then s else Run(Step(s, es[0]), es[1..])
  }

  // ---- Conservation ----

  /** Detected utterances are active or counted, but for `lost` of them. */
  predicate Conserved(s: Pipeline, lost: nat) {
    && s.detected == |s.jobs| + s.completed + s.failed + s.superseded + lost
    && (forall j | j in s.jobs :: j < s.nextJob)
  }

  /** The step removes a job that ended as a plan, or died without an outcome. */
  predicate LosesOne(s: Pipeline, e: Event) {
    && e.FinishEvent? && e.job in s.jobs
    && (s.jobs[e.job].phase == Ended(None) || s.jobs[e.job].phase == Ended(Some(Planned)))
  }

  /** How many such jobs a run removes. */
  function Lost(s: Pipeline, es: seq<Event>): nat
    decreases |es|
  {
    if es == [] then 0 else (if LosesOne(s, es[0]) then 1 else 0) + Lost(Step(s, es[0]), es[1..])
  }

  lemma SizeAfterInsert<K, V>(m: map<K, V>, k: K, v: V)
    ensures |m[k := v]| == |m| + if k in m then 0 else 1
  {
    assert m[k := v].Keys == m.Keys + {k};
  }

  lemma SizeAfterRemove<K, V>(m: map<K, V>, k: K)
    requires k in m
    ensures |m - {k}| == |m| - 1
  {
    assert (m - {k}).Keys == m.Keys - {k};
  }

  lemma WorkChangesOnlyThePhase(s: Pipeline, j: nat, c: Choice)
    requires j in s.jobs
    ensures Work(s, j, c).jobs.Keys == s.jobs.Keys && Work(s, j, c).jobs[j].token == s.jobs[j].token
    ensures forall k | k in s.jobs && k != j :: Work(s, j, c).jobs[k] == s.jobs[k]
    ensures
      var n := Work(s, j, c);
      (n.detected, n.completed, n.failed, n.superseded, n.nextJob, n.latestAdmitted, n.recordOnly)
        == (s.detected, s.completed, s.failed, s.superseded, s.nextJob, s.latestAdmitted, s.recordOnly)
  {
  }

  lemma FinishConserves(s: Pipeline, j: nat, lost: nat)
    requires Conserved(s, lost)
    ensures Conserved(Finish(s, j), lost + if LosesOne(s, FinishEvent(j)) then 1 else 0)
  {
    if j in s.jobs { SizeAfterRemove(s.jobs, j); }
  }

  lemma StepConserves(s: Pipeline, e: Event, lost: nat)
    requires Conserved(s, lost)
    ensures Conserved(Step(s, e), lost + if LosesOne(s, e) then 1 else 0)
  {
    match e
    case LaunchEvent(id) => SizeAfterInsert(s.jobs, s.nextJob, Job(Begin(s.turns, id).1, Transcribing));
    case WorkEvent(j, c) =>
      if j in s.jobs {
        WorkChangesOnlyThePhase(s, j, c);
        assert |Work(s, j, c).jobs.Keys| == |s.jobs.Keys|;
      }
    case FinishEvent(j) => FinishConserves(s, j, lost);
    case HaltEvent =>
    case OtherTurn(_) =>
  }

  lemma {:induction false} RunConserves(s: Pipeline, es: seq<Event>, lost: nat)
    requires Conserved(s, lost)
    ensures Conserved(Run(s, es), lost + Lost(s, es))
    decreases |es|
  {
    if es != [] {
      StepConserves(s, es[0], lost);
      RunConserves(Step(s, es[0]), es[1..], lost + if LosesOne(s, es[0]) then 1 else 0);
    }
  }

  /**
   In every state of every run, each detected utterance is active, completed, failed, superseded, or is one of those
   the run removed as a plan or without an outcome.
   */
  lemma UtterancesAreConserved(recordOnly: bool, es: seq<Event>)
    ensures
      var s := Run(NewPipeline(recordOnly), es);
      s.detected == |s.jobs| + s.completed + s.failed + s.superseded + Lost(NewPipeline(recordOnly), es)
  {
    RunConserves(NewPipeline(recordOnly), es, 0);
  }

  /** No step of the run removes a job that ended as a plan or without an outcome. */
  ghost predicate LosesNone(s: Pipeline, es: seq<Event>) {
    forall i :: 0 <= i < |es| ==> !LosesOne(Run(s, es[..i]), es[i])
  }

  lemma {:induction false} LostIffSomeStepLoses(s: Pipeline, es: seq<Event>)
    ensures LosesNone(s, es) <==> Lost(s, es) == 0
    decreases |es|
  {
    if es != [] {
      var next, rest := Step(s, es[0]), es[1..];
      LostIffSomeStepLoses(next, rest);
      assert Run(s, es[..0]) == s;
      forall i | 0 <= i < |rest| ensures Run(s, es[..i + 1]) == Run(next, rest[..i]) && es[i + 1] == rest[i] {
        assert es[..i + 1][1..] == rest[..i];
      }
      if LosesNone(s, es) {
        forall i | 0 <= i < |rest| ensures !LosesOne(Run(next, rest[..i]), rest[i]) {
          assert !LosesOne(Run(s, es[..i + 1]), es[i + 1]);
        }
        assert !LosesOne(Run(s, es[..0]), es[0]);
      }
      if Lost(s, es) == 0 {
        forall i | 0 <= i < |es| ensures !LosesOne(Run(s, es[..i]), es[i]) {
          if i > 0 { assert !LosesOne(Run(next, rest[..i - 1]), rest[i - 1]); }
        }
      }
    }
  }

  /** Every ended job has an outcome that has a counter. */
  predicate EveryOutcomeCounts(s: Pipeline) {
    forall j | j in s.jobs ::
      s.jobs[j].phase.Ended? ==> s.jobs[j].phase.status.Some? && s.jobs[j].phase.status != Some(Planned)
  }

  predicate NobodyDies(es: seq<Event>) {
    forall e :: e in es ==> e.WorkEvent? ==> !e.choice.Dies? && !e.choice.DiesActing?
  }

  lemma OutcomesCountStep(s: Pipeline, e: Event)
    requires EveryOutcomeCounts(s) && !s.recordOnly && (e.WorkEvent? ==> !e.choice.Dies? && !e.choice.DiesActing?)
    ensures EveryOutcomeCounts(Step(s, e)) && !Step(s, e).recordOnly && !LosesOne(s, e)
  {
    if e.WorkEvent? && e.job in s.jobs && !s.jobs[e.job].phase.Ended? {
      var r := Handle(s, e.job, s.jobs[e.job].token, s.jobs[e.job].phase, e.choice);
      assert r.phase.Ended? ==> r.phase.status.Some? && r.phase.status != Some(Planned);
    }
  }

  lemma {:induction false} OutcomesCount(s: Pipeline, es: seq<Event>)
    requires EveryOutcomeCounts(s) && !s.recordOnly && NobodyDies(es)
    ensures Lost(s, es) == 0
    decreases |es|
  {
    if es != [] {
      assert es[0] in es;
      OutcomesCountStep(s, es[0]);
      OutcomesCount(Step(s, es[0]), es[1..]);
    }
  }

  /**
   The four published counters add up to the detected utterances if and only if no step of the run removed a job that
   ended as a plan or without an outcome. Outside record-only mode that is so whenever no job dies.
   */
  lemma CountersAddUp(recordOnly: bool, es: seq<Event>)
    ensures
      var s := Run(NewPipeline(recordOnly), es);
      && (s.detected == |s.jobs| + s.completed + s.failed + s.superseded <==> LosesNone(NewPipeline(recordOnly), es))
      && (!recordOnly && NobodyDies(es) ==> LosesNone(NewPipeline(recordOnly), es))
  {
    UtterancesAreConserved(recordOnly, es);
    LostIffSomeStepLoses(NewPipeline(recordOnly), es);
    if !recordOnly && NobodyDies(es) {
      OutcomesCount(NewPipeline(recordOnly), es);
    }
  }

  // ---- Runs whose counters do not add up ----

  predicate Forgotten(s: Pipeline) {
    s.detected == 1 && s.jobs == map[] && s.completed == s.failed == s.superseded == 0
  }

  /** The phases of an utterance that is heard, admitted, thought about, and then only recorded as a plan. */
  const ROUTE: seq<Phase> :=
    [Transcribing, Admitting, Entering, Checking, Thinking, Rechecking, Dispatching, Ended(Some(Planned))]

  /** `n` undisturbed sections of job 1. */
  function Sections(n: nat): seq<Event>
    decreases n
  {
    if n == 0 then [] else Sections(n - 1) + [WorkEvent(1, Proceeds)]
  }

  function Worked(s: Pipeline, n: nat): Pipeline
    decreases n
  {
    if n == 0 then s else Work(Worked(s, n - 1), 1, Proceeds)
  }

  lemma {:induction false} RunSections(s: Pipeline, n: nat, rest: seq<Event>)
    ensures Run(s, Sections(n) + rest) == Run(Worked(s, n), rest)
    decreases n
  {
    if n == 0 {
      assert Sections(0) + rest == rest;
    } else {
      var last := [WorkEvent(1, Proceeds)];
      assert Sections(n) + rest == Sections(n - 1) + (last + rest);
      RunSections(s, n - 1, last + rest);
      RunOne(Worked(s, n - 1), WorkEvent(1, Proceeds), rest);
    }
  }

  lemma RunOne(s: Pipeline, e: Event, rest: seq<Event>)
    ensures Run(s, [e] + rest) == Run(Step(s, e), rest)
  {
    assert ([e] + rest)[1..] == rest;
  }

  /** Job 1 in a phase of its single turn, with nothing counted yet. */
  predicate Alone(s: Pipeline, recordOnly: bool, phase: Phase) {
    && s.recordOnly == recordOnly && s.detected == 1 && s.completed == s.failed == s.superseded == 0
    && s.latestAdmitted == 1
    && s.jobs == map[1 := Job(Token("turn", 1), phase)]
    && (!phase.Ended? ==> s.turns.pending == Some(Token("turn", 1)))
    && (phase == Entering ==> s.active == {})
  }

  lemma LaunchedAlone(recordOnly: bool)
    ensures Alone(Launch(NewPipeline(recordOnly), "turn"), recordOnly, Transcribing)
  {
  }

  /** Nobody else handles the turn before the job itself enters it. */
  predicate OnRoute(s: Pipeline, n: nat)
    requires n < |ROUTE|
  {
    Alone(s, true, ROUTE[n]) && (n <= 2 ==> s.active == {})
  }

  lemma NextOnRoute(s: Pipeline, n: nat)
    requires n < |ROUTE| - 1 && OnRoute(s, n)
    ensures OnRoute(Work(s, 1, Proceeds), n + 1)
  {
  }

  lemma {:induction false} WorkedAlone(n: nat)
    requires n < |ROUTE|
    ensures OnRoute(Worked(Launch(NewPipeline(true), "turn"), n), n)
    decreases n
  {
    if n == 0 {
      LaunchedAlone(true);
    } else {
      WorkedAlone(n - 1);
      NextOnRoute(Worked(Launch(NewPipeline(true), "turn"), n - 1), n - 1);
    }
  }

  lemma PlanningRun(s: Pipeline)
    ensures Run(s, [LaunchEvent("turn")] + (Sections(7) + [FinishEvent(1)])) == Finish(Worked(Launch(s, "turn"), 7), 1)
  {
    var launched := Launch(s, "turn");
    RunOne(s, LaunchEvent("turn"), Sections(7) + [FinishEvent(1)]);
    RunSections(launched, 7, [FinishEvent(1)]);
    RunOne(Worked(launched, 7), FinishEvent(1), []);
    assert [FinishEvent(1)] + [] == [FinishEvent(1)];
  }

  lemma FinishedPlanIsForgotten(s: Pipeline)
    requires Alone(s, true, Ended(Some(Planned)))
    ensures Forgotten(Finish(s, 1))
  {
    assert map[1 := Job(Token("turn", 1), Ended(Some(Planned)))] - {1} == map[];
  }

  /** In record-only mode an utterance that was planned appears in no published counter. */
  lemma PlannedUtteranceIsForgotten()
    ensures Forgotten(Run(NewPipeline(true), [LaunchEvent("turn")] + (Sections(7) + [FinishEvent(1)])))
  {
    PlanningRun(NewPipeline(true));
    WorkedAlone(7);
    FinishedPlanIsForgotten(Worked(Launch(NewPipeline(true), "turn"), 7));
  }

  /** So does one whose job dies without an outcome, in either mode. */
  lemma DeadUtteranceIsForgotten(recordOnly: bool)
    ensures Forgotten(Run(NewPipeline(recordOnly), [LaunchEvent("turn"), WorkEvent(1, Dies), FinishEvent(1)]))
  {
    var launched := Launch(NewPipeline(recordOnly), "turn");
    var dead := Work(launched, 1, Dies);
    LaunchedAlone(recordOnly);
    assert dead.jobs == map[1 := Job(Token("turn", 1), Ended(None))];
    RunOne(dead, FinishEvent(1), []);
    RunOne(launched, WorkEvent(1, Dies), [FinishEvent(1)]);
    RunOne(NewPipeline(recordOnly), LaunchEvent("turn"), [WorkEvent(1, Dies), FinishEvent(1)]);
    assert Forgotten(Finish(dead, 1));
  }

  // ---- Effects ----

  /** A job that completed has acted, and only then. */
  predicate CompletedActed(s: Pipeline, j: nat)
    requires j in s.jobs
  {
    s.jobs[j].phase.Ended? && s.jobs[j].phase.status in {Some(Applied), Some(Planned), Some(FastStopRequested)} ==>
      s.jobs[j].token in s.turns.effects
  }

  predicate TurnsHold(s: Pipeline) {
    && Fenced(s.turns)
    && (forall j | j in s.jobs :: j < s.nextJob && s.jobs[j].token.version <= s.turns.version && CompletedActed(s, j))
  }

  lemma TurnOperationsKeepFenced(t: Turns, token: Token, id: string)
    requires Fenced(t)
    ensures Fenced(Begin(t, id).0) && Fenced(Claim(t, token).0) && Fenced(Apply(t, token).0) && Fenced(Invalidate(t))
    ensures t.effects <= Apply(t, token).0.effects
  {
    StepKeepsFenced(t, BeginEvent(id));
    StepKeepsFenced(t, ClaimEvent(token));
    StepKeepsFenced(t, ApplyEvent(token));
    StepKeepsFenced(t, InvalidateEvent);
  }

  /** What a job's section may do to the turns: nothing, claim its own turn, or apply it once. */
  lemma WorkOnTurns(s: Pipeline, j: nat, c: Choice)
    requires j in s.jobs
    ensures
      var n, token := Work(s, j, c), s.jobs[j].token;
      && n.turns in {s.turns, Claim(s.turns, token).0, Apply(s.turns, token).0}
      && (n.turns.effects != s.turns.effects ==>
            s.turns.pending == Some(token) && n.turns.effects == s.turns.effects + [token])
      && (CompletedActed(s, j) ==> CompletedActed(n, j))
  {
  }

  lemma WorkKeepsTurns(s: Pipeline, j: nat, c: Choice)
    requires TurnsHold(s)
    ensures TurnsHold(Work(s, j, c))
  {
    if j in s.jobs {
      WorkChangesOnlyThePhase(s, j, c);
      WorkOnTurns(s, j, c);
      TurnOperationsKeepFenced(s.turns, s.jobs[j].token, "");
    }
  }

  lemma StepKeepsTurns(s: Pipeline, e: Event)
    requires TurnsHold(s)
    ensures TurnsHold(Step(s, e))
  {
    match e
    case LaunchEvent(id) => TurnOperationsKeepFenced(s.turns, Token("", 0), id);
    case WorkEvent(j, c) => WorkKeepsTurns(s, j, c);
    case FinishEvent(_) =>
    case HaltEvent => TurnOperationsKeepFenced(s.turns, Token("", 0), "");
    case OtherTurn(id) => TurnOperationsKeepFenced(s.turns, Token("", 0), id);
  }

  lemma {:induction false} RunKeepsTurns(s: Pipeline, es: seq<Event>)
    requires TurnsHold(s)
    ensures TurnsHold(Run(s, es))
    decreases |es|
  {
    if es != [] {
      StepKeepsTurns(s, es[0]);
      RunKeepsTurns(Step(s, es[0]), es[1..]);
    }
  }

  /**
   However jobs interleave with launches, halts and other turns: effects run in strictly increasing turn order;
   a section of a job runs at most its own turn's effect, and none at all once a newer turn or a halt has raised
   the version; and a job that ends completed has acted.
   */
  lemma StaleJobsNeverAct(recordOnly: bool, es: seq<Event>, j: nat, c: Choice)
    requires j in Run(NewPipeline(recordOnly), es).jobs
    ensures
      var s := Run(NewPipeline(recordOnly), es);
      var n, token := Work(s, j, c), s.jobs[j].token;
      && Increasing(n.turns.effects)
      && (n.turns.effects == s.turns.effects || n.turns.effects == s.turns.effects + [token])
      && (token.version < s.turns.version ==> n.turns.effects == s.turns.effects)
      && CompletedActed(n, j)
  {
    RunKeepsTurns(NewPipeline(recordOnly), es);
    WorkOnTurns(Run(NewPipeline(recordOnly), es), j, c);
    StepKeepsTurns(Run(NewPipeline(recordOnly), es), WorkEvent(j, c));
  }
}
