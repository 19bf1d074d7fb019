/**
 The interaction runtime and the audio pipeline as objects, one method per locked section, proved against
 PipelineModel. Which section each job has reached is ghost.
 */
module AudioPipeline {
  import opened Contracts
  import opened TurnModel
  import opened DialogueTurns
  import opened PipelineModel

  class InteractionRuntime {
    const turns: DialogueTurnManager
    const recordOnly: bool
    var active: set<Token>

    constructor (turns: DialogueTurnManager, recordOnly: bool)
      ensures active == {} && this.turns == turns && this.recordOnly == recordOnly
    {
      this.turns, this.recordOnly, active := turns, recordOnly, {};
    }

    ghost predicate Left(s: Section)
      reads this, turns
    {
      turns.Model() == s.turns && active == s.active
    }

    /** Claim the right to handle a turn; a turn already being handled is a duplicate. */
    method BeginHandling(token: Token) returns (duplicate: bool)
      modifies this
      ensures Left(EnterTurn(turns.Model(), old(active), token))
      ensures EnterTurn(turns.Model(), old(active), token).phase ==
              if duplicate then Ended(Some(Superseded)) else Checking
    {
      duplicate := token in active;
      active := active + {token};
    }

    method EndHandling(token: Token)
      modifies this
      ensures active == old(active) - {token}
    {
      active := active - {token};
    }

    /** Fail a turn if it is still current. */
    method FailReserved(token: Token) returns (status: Status)
      modifies this, turns
      ensures Left(ClaimThenFail(old(turns.Model()), old(active), token))
      ensures ClaimThenFail(old(turns.Model()), old(active), token).phase == Ended(Some(status))
    {
      var ok := turns.ClaimCurrent(token);
      EndHandling(token);
      return if ok then Failed else Superseded;
    }

    /** Give the bundle to the executors as one effect of the turn; a raising executor fails the turn. */
    method DispatchBundle(token: Token, raises: bool) returns (status: Status)
      modifies this, turns
      ensures
        var s := ApplyThenEnd(old(turns.Model()), old(active), token, if recordOnly then Planned else Applied,
                              raises, Ended(Some(Failed)));
        Left(s) && s.phase == Ended(Some(status))
    {
      var ran := turns.ApplyIfCurrent(token);
      EndHandling(token);
      if !ran {
        return Superseded;
      }
      if raises {
        return Failed;
      }
      return if recordOnly then Planned else Applied;
    }

    /** Halt both outputs as one effect of the turn; when the halt raises, the failure is reported next. */
    method FastStop(token: Token, raises: bool) returns (status: Option<Status>)
      modifies this, turns
      ensures
        var s := ApplyThenEnd(old(turns.Model()), old(active), token, FastStopRequested, raises, Reporting);
        Left(s) && s.phase == if status.Some? then Ended(status) else Reporting
    {
      var ran := turns.ApplyIfCurrent(token);
      EndHandling(token);
      if !ran {
        return Some(Superseded);
      }
      return if raises then None else Some(FastStopRequested);
    }
  }

  class AudioInteractionPipeline {
    const runtime: InteractionRuntime
    var jobs: map<nat, Token>
    var nextJob: nat
    var latestAdmitted: nat
    var detected: nat
    var completed: nat
    var failed: nat
    var superseded: nat
    ghost var work: map<nat, Job>

    ghost predicate Valid()
      reads this
    {
      work.Keys == jobs.Keys && forall j | j in jobs :: work[j].token == jobs[j]
    }

    ghost function Model(): Pipeline
      reads this, runtime, runtime.turns
    {
      Pipeline(runtime.recordOnly, runtime.turns.Model(), runtime.active, work, nextJob, latestAdmitted,
               detected, completed, failed, superseded)
    }

    constructor (runtime: InteractionRuntime)
      requires runtime.turns.Model() == NO_TURNS && runtime.active == {}
      ensures Valid() && Model() == NewPipeline(runtime.recordOnly) && this.runtime == runtime
    {
      this.runtime := runtime;
      jobs, nextJob, latestAdmitted := map[], 1, 0;
      detected, completed, failed, superseded := 0, 0, 0, 0;
      work := map[];
    }

    /** Reserve the turn as soon as the utterance is closed; from here on every older job is stale. */
    method Launch(id: string) returns (j: nat, token: Token)
      requires Valid()
      modifies this, runtime.turns
      ensures Valid() && Model() == PipelineModel.Launch(old(Model()), id)
      ensures j in jobs && jobs[j] == token
    {
      j := nextJob;
      nextJob := nextJob + 1;
      token := runtime.turns.BeginTurn(id);
      latestAdmitted := j;
      jobs := jobs[j := token];
      work := work[j := Job(token, Transcribing)];
      detected := detected + 1;
    }

    method AdmitTranscript(j: nat) returns (admitted: bool)
      requires Valid() && j in jobs && work[j].phase == Admitting
      modifies this`work
      ensures Valid() && Model() == Work(old(Model()), j, Proceeds)
      ensures admitted <==> j == latestAdmitted
    {
      admitted := j == latestAdmitted;
      work := work[j := work[j].(phase := if admitted then Entering else Ended(Some(Superseded)))];
    }

    method Finish(j: nat, status: Option<Status>)
      requires Valid() && j in jobs && work[j].phase == Ended(status)
      modifies this
      ensures Valid() && Model() == PipelineModel.Finish(old(Model()), j)
    {
      jobs := jobs - {j};
      work := work - {j};
      match status {
        case Some(Applied) => completed := completed + 1;
        case Some(FastStopRequested) => completed := completed + 1;
        case Some(Failed) => failed := failed + 1;
        case Some(Superseded) => superseded := superseded + 1;
        case _ =>
      }
    }
  }
}
