/** Which of the accepted actions is served: over every run it is the newest one that no halt came after. */
module SupervisorNewest {
  import opened Contracts
  import opened ControlClaims
  import opened SupervisorModel
  import opened SupervisorRuns

  /** What is asked of the resource after one more event. */
  function Then(wanted: Option<string>, e: Event): Option<string> {
    match e
    case ScheduleEvent(id, _) => Some(id)
    case HaltEvent(_) => None
    case _ => wanted
  }

  /** The action accepted last, unless a halt came after it. */
  function Wanted(wanted: Option<string>, es: seq<Event>): Option<string>
    decreases |es|
  {
    if es == [] then wanted else Wanted(Then(wanted, es[0]), es[1..])
  }

  predicate Redirects(e: Event) {
    e.ScheduleEvent? || e.HaltEvent?
  }

  /** The wanted action waits behind a stopping one, or is live, or has been launched and came to an end of its own. */
  ghost predicate Serves(s: Slot, wanted: Option<string>) {
    match wanted
    case None => s.pending.None? && (s.current.None? || s.current.value.phase == Stopping)
    case Some(id) =>
      if s.current.Some? && s.current.value.phase == Stopping then s.pending == Some(id)
      else if s.current.Some? then s.current.value.actionId == id && s.pending.None?
      else s.pending.None? && EndedLast(s.history, id)
  }

  ghost predicate EndedLast(history: seq<Record>, id: string) {
    history != [] &&
    var r := history[|history| - 1];
    r.actionId == id && r.token.Some? && !r.ending.Cancelled?
  }

  lemma StartServes(s: Slot, id: string, o: Oracle)
    requires s.claim.owner.None? && s.current.None? && s.pending.None? && id != ""
    ensures Serves(Start(s, id, o), Some(id))
  {
  }

  lemma FinishServes(s: Slot, token: nat, normally: bool, o: Oracle, wanted: Option<string>)
    requires Owned(s) && Serves(s, wanted)
    ensures Serves(Finish(s, token, normally, o), wanted)
  {
    if s.current.Some? && s.current.value.token == token && s.pending.Some? {
      StartServes(EndCurrent(s, normally, o), s.pending.value, o);
    }
  }

  lemma StepServes(s: Slot, e: Event, wanted: Option<string>)
    requires Owned(s) && Serves(s, wanted) && Proper(e)
    ensures Serves(Step(s, e), Then(wanted, e))
  {
    match e
    case ScheduleEvent(id, o) => if s.current.None? { StartServes(DropPending(s), id, o); }
    case HaltEvent(_) =>
    case RunningEvent(_) =>
    case FinishEvent(token, normally, o) => FinishServes(s, token, normally, o, wanted);
  }

  lemma {:induction false} RunServes(s: Slot, es: seq<Event>, wanted: Option<string>)
    requires Invariant(s) && Serves(s, wanted) && forall e :: e in es ==> Proper(e)
    ensures Serves(Run(s, es), Wanted(wanted, es))
    decreases |es|
  {
    if es != [] {
      StepKeepsInvariant(s, es[0]);
      StepServes(s, es[0], wanted);
      RunServes(Step(s, es[0]), es[1..], Then(wanted, es[0]));
    }
  }

  /**
   In every reachable state the action accepted last waits behind a stopping action, or is the live one, or was
   launched and then failed or completed; if a halt came after it, nothing is pending and nothing is live.
   */
  lemma NewestIsServed(es: seq<Event>)
    requires forall e :: e in es ==> Proper(e)
    ensures Serves(Run(IDLE, es), Wanted(None, es))
  {
    IdleIsSound();
    RunServes(IDLE, es, None);
  }

  /** The wanted action was accepted at some step, and no other was accepted nor a halt requested since. */
  lemma {:induction false} WantedIsLast(wanted: Option<string>, es: seq<Event>) returns (i: int)
    ensures -1 <= i < |es| && (forall j :: i < j < |es| ==> !Redirects(es[j]))
    ensures i == -1 ==> Wanted(wanted, es) == wanted
    ensures i >= 0 ==> Redirects(es[i]) && Wanted(wanted, es) == Then(None, es[i])
    decreases |es|
  {
    if es == [] {
      i := -1;
    } else {
      var k := WantedIsLast(Then(wanted, es[0]), es[1..]);
      forall j | k + 1 < j < |es| ensures !Redirects(es[j]) {
        assert es[j] == es[1..][j - 1];
      }
      i := if k >= 0 then k + 1 else if Redirects(es[0]) then 0 else -1;
    }
  }

  // ---- What becomes of the others ----

  /** Accepted at one step and given up, not yet started, because of a later one. */
  ghost predicate GivenUp(es: seq<Event>, id: string) {
    exists i, j :: 0 <= i < j < |es| && es[i].ScheduleEvent? && es[i].id == id && Redirects(es[j])
  }

  lemma FinishRecordsTheStarted(s: Slot, token: nat, normally: bool, o: Oracle)
    requires Owned(s)
    ensures forall r :: r in Finish(s, token, normally, o).history && r !in s.history ==> r.token.Some?
  {
    if s.current.Some? && s.current.value.token == token {
      var ended := EndCurrent(s, normally, o);
      assert forall r :: r in ended.history && r !in s.history ==> r.token.Some?;
    }
  }

  lemma NewUnstartedRecord(s: Slot, e: Event, wanted: Option<string>, r: Record)
    requires Owned(s) && Serves(s, wanted) && Proper(e)
    requires r in Step(s, e).history && r !in s.history && r.token.None?
    ensures Redirects(e) && wanted == Some(r.actionId)
  {
    if e.FinishEvent? { FinishRecordsTheStarted(s, e.token, e.normally, e.oracle); }
  }

  lemma LaterGivesUp(es: seq<Event>, id: string)
    requires es != [] && GivenUp(es[1..], id)
    ensures GivenUp(es, id)
  {
    var i, j :| 0 <= i < j < |es[1..]| && es[1..][i].ScheduleEvent? && es[1..][i].id == id && Redirects(es[1..][j]);
    assert es[i + 1] == es[1..][i] && es[j + 1] == es[1..][j];
  }

  lemma {:induction false} UnstartedWereGivenUp(s: Slot, es: seq<Event>, wanted: Option<string>, r: Record)
    requires Invariant(s) && Serves(s, wanted) && forall e :: e in es ==> Proper(e)
    requires r in Run(s, es).history && r.token.None?
    ensures r in s.history || GivenUp(es, r.actionId)
            || (wanted == Some(r.actionId) && exists j :: 0 <= j < |es| && Redirects(es[j]))
    decreases |es|
  {
    if es != [] {
      var n, later := Step(s, es[0]), es[1..];
      StepKeepsInvariant(s, es[0]);
      StepServes(s, es[0], wanted);
      UnstartedWereGivenUp(n, later, Then(wanted, es[0]), r);
      if r in n.history {
        if r !in s.history { NewUnstartedRecord(s, es[0], wanted, r); }
      } else if GivenUp(later, r.actionId) {
        LaterGivesUp(es, r.actionId);
      } else {
        var j :| 0 <= j < |later| && Redirects(later[j]);
        assert es[j + 1] == later[j];
      }
    }
  }

  /** An action is recorded as cancelled before it started only if it was accepted and a bundle or a halt came later. */
  lemma OnlyTheSupersededAreNeverStarted(es: seq<Event>, r: Record)
    requires forall e :: e in es ==> Proper(e)
    requires r in Run(IDLE, es).history && r.token.None?
    ensures r.ending == Cancelled && GivenUp(es, r.actionId)
  {
    IdleIsSound();
    RecordsAreTruthful(es, r);
    UnstartedWereGivenUp(IDLE, es, None, r);
  }

  /**
   When the executor of a stopping action returns, the action started next is the one accepted last: it is authorized
   under a fresh token, and becomes the current action exactly if the authorization succeeds.
   */
  lemma EndStartsTheNewest(es: seq<Event>, normally: bool, o: Oracle)
    requires forall e :: e in es ==> Proper(e)
    requires Run(IDLE, es).current.Some? && Run(IDLE, es).current.value.phase == Stopping
    ensures
      var s := Run(IDLE, es);
      var h := s.current.value;
      var n := Finish(s, h.token, normally, o);
      && Record(h.actionId, Some(h.token), if normally then Cancelled else Failed) in n.history
      && match Wanted(None, es)
         case None => n.current.None? && n.log == s.log + [ExecutorReturned(h.token, normally)]
         case Some(id) =>
           var token := s.claim.token + 1;
           && ExecutorReturned(h.token, normally) in n.log && AuthorizeCall(token, id, o.authorizeOk) in n.log
           && n.current == (if o.authorizeOk then Some(Handle(id, token, Preparing)) else None)
  {
    IdleIsSound();
    RunKeepsInvariant(IDLE, es);
    NewestIsServed(es);
    var s := Run(IDLE, es);
    var h := s.current.value;
    var record := Record(h.actionId, Some(h.token), if normally then Cancelled else Failed);
    assert record in EndCurrent(s, normally, o).history;
  }

  // ---- What the calls answered ----

  ghost predicate Next(log: seq<Effect>, i: int, e: Effect) {
    0 <= i + 1 < |log| && log[i + 1] == e
  }

  /** The next effect neutralizes the resource just above this token, whatever comes of it. */
  ghost predicate FencedNext(log: seq<Effect>, i: int, token: nat) {
    Next(log, i, NeutralizeCall(token + 1, true)) || Next(log, i, NeutralizeCall(token + 1, false))
  }

  /** An executor starts directly after its successful authorization; a refused one is fenced at once. */
  ghost predicate AnswersFollowed(log: seq<Effect>) {
    && (forall i :: 0 <= i < |log| && log[i].AuthorizeCall? ==>
          if log[i].ok then Next(log, i, StartThread(log[i].token))
          else FencedNext(log, i, log[i].token))
    && (forall i :: 0 <= i < |log| && log[i].StartThread? ==>
          i > 0 && log[i - 1].AuthorizeCall? && log[i - 1].ok && log[i - 1].token == log[i].token)
  }

  lemma PlainEffectKeepsAnswers(log: seq<Effect>, e: Effect)
    requires AnswersFollowed(log) && !e.AuthorizeCall? && !e.StartThread?
    ensures AnswersFollowed(log + [e])
  {
    var n := log + [e];
    forall i | 0 <= i < |n| && n[i].AuthorizeCall?
      ensures if n[i].ok then Next(n, i, StartThread(n[i].token))
              else FencedNext(n, i, n[i].token)
    {
      assert n[i] == log[i] && i + 1 < |log| && n[i + 1] == log[i + 1];
    }
  }

  lemma CallKeepsAnswers(log: seq<Effect>, call: Effect, answer: Effect)
    requires AnswersFollowed(log) && call.AuthorizeCall?
    requires call.ok ==> answer == StartThread(call.token)
    requires !call.ok ==> answer.NeutralizeCall? && answer.token == call.token + 1
    ensures AnswersFollowed(log + [call, answer])
  {
    var n := log + [call, answer];
    forall i | 0 <= i < |n| && n[i].AuthorizeCall?
      ensures if n[i].ok then Next(n, i, StartThread(n[i].token))
              else FencedNext(n, i, n[i].token)
    {
      if i < |log| {
        assert n[i] == log[i] && i + 1 < |log| && n[i + 1] == log[i + 1];
      } else {
        assert i == |log| && n[i + 1] == answer;
      }
    }
  }

  lemma StartKeepsAnswers(s: Slot, id: string, o: Oracle)
    requires AnswersFollowed(s.log) && s.claim.owner.None? && s.current.None? && id != ""
    ensures AnswersFollowed(Start(s, id, o).log)
  {
    var token := s.claim.token + 1;
    var answer := if o.authorizeOk then StartThread(token) else NeutralizeCall(token + 1, o.rollbackOk);
    CallKeepsAnswers(s.log, AuthorizeCall(token, id, o.authorizeOk), answer);
    assert Start(s, id, o).log == s.log + [AuthorizeCall(token, id, o.authorizeOk), answer];
  }

  lemma CancelKeepsAnswers(s: Slot, h: Handle, o: Oracle)
    requires AnswersFollowed(s.log) && s.claim == Claim(h.token, Some(h.actionId))
    ensures AnswersFollowed(CancelCurrent(s, h, o).log)
  {
    var fence, signal := NeutralizeCall(h.token + 1, o.neutralizeOk), CancelSignal(h.token);
    PlainEffectKeepsAnswers(s.log, fence);
    PlainEffectKeepsAnswers(s.log + [fence], signal);
    assert CancelCurrent(s, h, o).log == s.log + [fence] + [signal];
  }

  lemma FinishKeepsAnswers(s: Slot, token: nat, normally: bool, o: Oracle)
    requires Owned(s) && AnswersFollowed(s.log)
    ensures AnswersFollowed(Finish(s, token, normally, o).log)
  {
    if s.current.Some? && s.current.value.token == token {
      var h, ended := s.current.value, EndCurrent(s, normally, o);
      var returned, fence := ExecutorReturned(h.token, normally), NeutralizeCall(h.token + 1, o.neutralizeOk);
      PlainEffectKeepsAnswers(s.log, returned);
      PlainEffectKeepsAnswers(s.log + [returned], fence);
      assert ended.log == s.log + [returned] || ended.log == s.log + [returned] + [fence];
      if s.pending.Some? { StartKeepsAnswers(ended, s.pending.value, o); }
    }
  }

  lemma StepKeepsAnswers(s: Slot, e: Event)
    requires Owned(s) && AnswersFollowed(s.log) && Proper(e)
    ensures AnswersFollowed(Step(s, e).log)
  {
    match e
    case ScheduleEvent(id, o) =>
      if s.current.None? {
        StartKeepsAnswers(DropPending(s), id, o);
      } else if s.current.value.phase != Stopping {
        CancelKeepsAnswers(DropPending(s).(pending := Some(id)), s.current.value, o);
      }
    case HaltEvent(o) =>
      if s.current.None? {
        PlainEffectKeepsAnswers(s.log, NeutralizeCall(s.claim.token, o.neutralizeOk));
      } else if s.current.value.phase != Stopping {
        CancelKeepsAnswers(DropPending(s), s.current.value, o);
      }
    case RunningEvent(_) =>
    case FinishEvent(token, normally, o) => FinishKeepsAnswers(s, token, normally, o);
  }

  lemma {:induction false} RunKeepsAnswers(s: Slot, es: seq<Event>)
    requires Invariant(s) && AnswersFollowed(s.log) && forall e :: e in es ==> Proper(e)
    ensures AnswersFollowed(Run(s, es).log)
    decreases |es|
  {
    if es != [] {
      StepKeepsInvariant(s, es[0]);
      StepKeepsAnswers(s, es[0]);
      RunKeepsAnswers(Step(s, es[0]), es[1..]);
    }
  }

  /** In every run, executors start exactly where an authorization succeeded, and every refused one is fenced above. */
  lemma ExecutorsStartWhereAuthorized(es: seq<Event>)
    requires forall e :: e in es ==> Proper(e)
    ensures AnswersFollowed(Run(IDLE, es).log)
  {
    IdleIsSound();
    RunKeepsAnswers(IDLE, es);
  }

  /** An executor's return is fenced at once, unless its lease was fenced before it was told to stop. */
  ghost predicate EndsFenced(log: seq<Effect>) {
    forall i :: 0 <= i < |log| && log[i].ExecutorReturned? ==>
      || CancelSignal(log[i].token) in log[..i]
      || FencedNext(log, i, log[i].token)
  }

  lemma MoreKeepsEnds(log: seq<Effect>, more: seq<Effect>)
    requires EndsFenced(log) && forall e :: e in more ==> !e.ExecutorReturned?
    ensures EndsFenced(log + more)
  {
    var n := log + more;
    forall i | 0 <= i < |n| && n[i].ExecutorReturned?
      ensures CancelSignal(n[i].token) in n[..i] || FencedNext(n, i, n[i].token)
    {
      assert n[i] in more || i < |log|;
      assert n[..i] == log[..i] && n[i] == log[i];
    }
  }

  lemma ReturnKeepsEnds(log: seq<Effect>, returned: Effect, after: seq<Effect>)
    requires EndsFenced(log) && returned.ExecutorReturned?
    requires
      || (after == [] && CancelSignal(returned.token) in log)
      || (|after| == 1 && after[0].NeutralizeCall? && after[0].token == returned.token + 1)
    ensures EndsFenced(log + [returned] + after)
  {
    var n := log + [returned] + after;
    forall i | 0 <= i < |n| && n[i].ExecutorReturned?
      ensures CancelSignal(n[i].token) in n[..i] || FencedNext(n, i, n[i].token)
    {
      assert n[..i] == log[..if i < |log| then i else |log|] + [returned][..if i < |log| then 0 else i - |log|];
    }
  }

  lemma FinishKeepsEnds(s: Slot, token: nat, normally: bool, o: Oracle)
    requires Owned(s) && Accounted(s) && EndsFenced(s.log)
    ensures EndsFenced(Finish(s, token, normally, o).log)
  {
    if s.current.Some? && s.current.value.token == token {
      var h, ended, n := s.current.value, EndCurrent(s, normally, o), Finish(s, token, normally, o);
      var after := if h.phase == Stopping then [] else [NeutralizeCall(h.token + 1, o.neutralizeOk)];
      ReturnKeepsEnds(s.log, ExecutorReturned(h.token, normally), after);
      assert ended.log == s.log + [ExecutorReturned(h.token, normally)] + after;
      assert ended.log <= n.log && forall e :: e in n.log[|ended.log|..] ==> !e.ExecutorReturned?;
      MoreKeepsEnds(ended.log, n.log[|ended.log|..]);
      assert n.log == ended.log + n.log[|ended.log|..];
    }
  }

  lemma OthersReturnNothing(s: Slot, e: Event)
    requires Owned(s) && Proper(e) && !e.FinishEvent?
    ensures s.log <= Step(s, e).log && forall x :: x in Step(s, e).log[|s.log|..] ==> !x.ExecutorReturned?
  {
  }

  lemma StepKeepsEnds(s: Slot, e: Event)
    requires Owned(s) && Accounted(s) && EndsFenced(s.log) && Proper(e)
    ensures EndsFenced(Step(s, e).log)
  {
    if e.FinishEvent? {
      FinishKeepsEnds(s, e.token, e.normally, e.oracle);
    } else {
      OthersReturnNothing(s, e);
      MoreKeepsEnds(s.log, Step(s, e).log[|s.log|..]);
      assert Step(s, e).log == s.log + Step(s, e).log[|s.log|..];
    }
  }

  lemma {:induction false} RunKeepsEnds(s: Slot, es: seq<Event>)
    requires Invariant(s) && EndsFenced(s.log) && forall e :: e in es ==> Proper(e)
    ensures EndsFenced(Run(s, es).log)
    decreases |es|
  {
    if es != [] {
      StepKeepsInvariant(s, es[0]);
      StepKeepsEnds(s, es[0]);
      RunKeepsEnds(Step(s, es[0]), es[1..]);
    }
  }

  /** In every run, whatever way an executor came back, its lease is fenced before anything else happens. */
  lemma EveryEndIsFenced(es: seq<Event>)
    requires forall e :: e in es ==> Proper(e)
    ensures EndsFenced(Run(IDLE, es).log)
  {
    IdleIsSound();
    RunKeepsEnds(IDLE, es);
  }

  predicate Answers(e: Event, ok: bool) {
    match e
    case ScheduleEvent(_, o) => o.authorizeOk == ok
    case FinishEvent(_, _, o) => o.authorizeOk == ok
    case _ => true
  }

  predicate Neutralizes(e: Event, ok: bool) {
    match e
    case RunningEvent(_) => true
    case _ => e.oracle.neutralizeOk == ok && e.oracle.rollbackOk == ok
  }

  ghost predicate AllAuthorized(log: seq<Effect>, ok: bool) {
    forall e :: e in log && e.AuthorizeCall? ==> e.ok == ok
  }

  ghost predicate AllNeutralized(log: seq<Effect>, ok: bool) {
    forall e :: e in log && e.NeutralizeCall? ==> e.ok == ok
  }

  lemma FinishIsAsAnswered(s: Slot, e: Event, ok: bool)
    requires Owned(s) && e.FinishEvent?
    ensures Answers(e, ok) && AllAuthorized(s.log, ok) ==> AllAuthorized(Step(s, e).log, ok)
    ensures Neutralizes(e, ok) && AllNeutralized(s.log, ok) ==> AllNeutralized(Step(s, e).log, ok)
  {
    if s.current.Some? && s.current.value.token == e.token {
      var ended := EndCurrent(s, e.normally, e.oracle);
      assert AllAuthorized(s.log, ok) ==> AllAuthorized(ended.log, ok);
      assert Neutralizes(e, ok) && AllNeutralized(s.log, ok) ==> AllNeutralized(ended.log, ok);
    }
  }

  lemma StepIsAsAnswered(s: Slot, e: Event, ok: bool)
    requires Owned(s) && Proper(e)
    ensures Answers(e, ok) && AllAuthorized(s.log, ok) ==> AllAuthorized(Step(s, e).log, ok)
    ensures Neutralizes(e, ok) && AllNeutralized(s.log, ok) ==> AllNeutralized(Step(s, e).log, ok)
  {
    if e.FinishEvent? { FinishIsAsAnswered(s, e, ok); }
  }

  /** What is logged about an authorization, or about a neutralize, is what the output answered. */
  lemma {:induction false} CallsAreAsAnswered(s: Slot, es: seq<Event>, ok: bool)
    requires Invariant(s) && forall e :: e in es ==> Proper(e)
    ensures (forall e :: e in es ==> Answers(e, ok)) && AllAuthorized(s.log, ok) ==> AllAuthorized(Run(s, es).log, ok)
    ensures (forall e :: e in es ==> Neutralizes(e, ok)) && AllNeutralized(s.log, ok) ==>
              AllNeutralized(Run(s, es).log, ok)
    decreases |es|
  {
    if es != [] {
      StepKeepsInvariant(s, es[0]);
      StepIsAsAnswered(s, es[0], ok);
      CallsAreAsAnswered(Step(s, es[0]), es[1..], ok);
    }
  }

  // ---- Halts and reports ----

  /** A halt leaves the resource neutralized above every lease ever authorized, unless an action is already stopping. */
  lemma HaltFencesEveryLease(es: seq<Event>, o: Oracle, i: nat)
    requires forall e :: e in es ==> Proper(e)
    requires i < |Run(IDLE, es).log| && Run(IDLE, es).log[i].AuthorizeCall?
    requires var s := Run(IDLE, es); s.current.Some? ==> s.current.value.phase != Stopping
    ensures
      var s := Run(IDLE, es);
      exists f :: NeutralizeCall(f, o.neutralizeOk) in Halt(s, o).log[|s.log|..] && s.log[i].token < f
  {
    IdleIsSound();
    RunKeepsInvariant(IDLE, es);
    var s, n := Run(IDLE, es), Halt(Run(IDLE, es), o);
    assert s.log[i] in s.log;
    assert n.log[|s.log|].NeutralizeCall?;
    assert NeutralizeCall(n.log[|s.log|].token, o.neutralizeOk) == n.log[|s.log|..][0];
  }

  /** A live action is running exactly from the first report of its own executor on. */
  lemma RunningIffReported(s: Slot, e: Event)
    requires Invariant(s) && Proper(e) && s.current.Some? && s.current.value.phase != Stopping
    requires Step(s, e).current.Some? && Step(s, e).current.value.phase != Stopping
    requires Step(s, e).current.value.token == s.current.value.token
    ensures Step(s, e).current.value.phase == Running <==>
              s.current.value.phase == Running || e == RunningEvent(s.current.value.token)
  {
  }
}
