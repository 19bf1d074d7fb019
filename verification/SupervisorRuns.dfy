/** What the supervisor guarantees in every reachable state of one resource. */
module SupervisorRuns {
  import opened Contracts
  import opened ControlClaims
  import opened SupervisorModel

  datatype Event =
    | ScheduleEvent(id: string, oracle: Oracle)
    | HaltEvent(oracle: Oracle)
    | RunningEvent(token: nat)
    | FinishEvent(token: nat, normally: bool, oracle: Oracle)

  function Step(s: Slot, e: Event): Slot {
    match e
    case ScheduleEvent(id, o) => Schedule(s, id, o)
    case HaltEvent(o) => Halt(s, o)
    case RunningEvent(token) => MarkRunning(s, token)
    case FinishEvent(token, normally, o) => Finish(s, token, normally, o)
  }

  function Run(s: Slot, es: seq<Event>): Slot
    decreases |es|
  {
    if es == [] then s else Run(Step(s, es[0]), es[1..])
  }

  /** Action ids are never empty: the id factory is checked before anything is scheduled. */
  predicate Proper(e: Event) {
    e.ScheduleEvent? ==> e.id != ""
  }

  // ---- Ownership ----

  /**
   The current action owns the resource exactly while it is preparing or running; nobody owns it
   otherwise; a pending action waits only behind a stopping one.
   */
  ghost predicate Owned(s: Slot) {
    && !s.fault
    && (s.current.None? ==> s.claim.owner.None? && s.pending.None?)
    && (s.current.Some? ==>
          var h := s.current.value;
          && h.actionId != ""
          && (h.phase != Stopping ==> s.claim == Claim(h.token, Some(h.actionId)) && s.pending.None?)
          && (h.phase == Stopping ==> s.claim.owner.None? && h.token < s.claim.token))
    && s.pending != Some("")
  }

  lemma StepKeepsOwned(s: Slot, e: Event)
    requires Owned(s) && Proper(e)
    ensures Owned(Step(s, e))
  {
  }

  // ---- The order of effects ----

  ghost predicate IsFence(e: Effect, token: nat) {
    e.NeutralizeCall? && e.token > token
  }

  /** Every cancel signal comes directly after a neutralize of a token above the cancelled lease. */
  ghost predicate FencedBeforeSignal(log: seq<Effect>) {
    forall i :: 0 <= i < |log| && log[i].CancelSignal? ==> i > 0 && IsFence(log[i - 1], log[i].token)
  }

  /** Tokens only move forward: an authorization is above every earlier call, a neutralize above every earlier lease. */
  ghost predicate CallsAdvance(log: seq<Effect>) {
    forall i, j :: 0 <= i < j < |log| ==>
      && (log[j].AuthorizeCall? && (log[i].AuthorizeCall? || log[i].NeutralizeCall?) ==> log[i].token < log[j].token)
      && (log[j].NeutralizeCall? && log[i].AuthorizeCall? ==> log[i].token < log[j].token)
  }

  ghost predicate LogBelowClaim(s: Slot) {
    && (forall e :: e in s.log ==> e.token <= s.claim.token)
    && (s.claim.owner.None? ==> forall e :: e in s.log && e.AuthorizeCall? ==> e.token < s.claim.token)
  }

  ghost predicate Ordered(s: Slot) {
    FencedBeforeSignal(s.log) && CallsAdvance(s.log) && LogBelowClaim(s)
  }

  /** The one condition under which an effect may be logged next. */
  ghost predicate MayFollow(log: seq<Effect>, e: Effect) {
    && (e.CancelSignal? ==> |log| > 0 && IsFence(log[|log| - 1], e.token))
    && (e.AuthorizeCall? ==> forall x :: x in log && (x.AuthorizeCall? || x.NeutralizeCall?) ==> x.token < e.token)
    && (e.NeutralizeCall? ==> forall x :: x in log && x.AuthorizeCall? ==> x.token < e.token)
  }

  lemma AppendKeepsOrder(log: seq<Effect>, e: Effect)
    requires FencedBeforeSignal(log) && CallsAdvance(log) && MayFollow(log, e)
    ensures FencedBeforeSignal(log + [e]) && CallsAdvance(log + [e])
  {
  }

  lemma AppendTwoKeepsOrder(log: seq<Effect>, e: Effect, f: Effect)
    requires FencedBeforeSignal(log) && CallsAdvance(log) && MayFollow(log, e) && MayFollow(log + [e], f)
    ensures FencedBeforeSignal(log + [e, f]) && CallsAdvance(log + [e, f])
  {
    AppendKeepsOrder(log, e);
    AppendKeepsOrder(log + [e], f);
    assert log + [e] + [f] == log + [e, f];
  }

  lemma StartKeepsOrdered(s: Slot, id: string, o: Oracle)
    requires Ordered(s) && s.claim.owner.None? && id != ""
    ensures Ordered(Start(s, id, o)) && s.log <= Start(s, id, o).log
  {
    var token := s.claim.token + 1;
    var next := Start(s, id, o);
    if o.authorizeOk {
      assert next == s.(claim := Claim(token, Some(id)), current := Some(Handle(id, token, Preparing)),
                        log := s.log + [AuthorizeCall(token, id, true), StartThread(token)]);
      AppendTwoKeepsOrder(s.log, AuthorizeCall(token, id, true), StartThread(token));
    } else {
      assert next.claim == Claim(token + 1, None);
      assert next.log == s.log + [AuthorizeCall(token, id, false), NeutralizeCall(token + 1, o.rollbackOk)];
      AppendTwoKeepsOrder(s.log, AuthorizeCall(token, id, false), NeutralizeCall(token + 1, o.rollbackOk));
    }
  }

  /** A claim raised by one and given up is above everything logged before. */
  lemma RaisedClaimIsAbove(s: Slot, claim: Claim, more: seq<Effect>)
    requires LogBelowClaim(s) && claim == Claim(s.claim.token + 1, None)
    requires forall e :: e in more ==> e.token <= claim.token && !e.AuthorizeCall?
    ensures forall e :: e in s.log + more ==> e.token <= claim.token && (e.AuthorizeCall? ==> e.token < claim.token)
  {
  }

  lemma CancelKeepsOrdered(s: Slot, h: Handle, o: Oracle)
    requires Ordered(s) && s.claim == Claim(h.token, Some(h.actionId))
    ensures Ordered(CancelCurrent(s, h, o)) && s.log <= CancelCurrent(s, h, o).log
  {
    var fence, signal := NeutralizeCall(h.token + 1, o.neutralizeOk), CancelSignal(h.token);
    AppendTwoKeepsOrder(s.log, fence, signal);
    var next := CancelCurrent(s, h, o);
    assert next.log == s.log + [fence, signal] && next.claim == Claim(h.token + 1, None);
    RaisedClaimIsAbove(s, next.claim, [fence, signal]);
  }

  lemma EndKeepsOrdered(s: Slot, normally: bool, o: Oracle)
    requires Owned(s) && Ordered(s) && s.current.Some?
    ensures Ordered(EndCurrent(s, normally, o)) && s.log <= EndCurrent(s, normally, o).log
  {
    var h := s.current.value;
    var returned := ExecutorReturned(h.token, normally);
    AppendKeepsOrder(s.log, returned);
    var ended := EndCurrent(s, normally, o);
    if h.phase == Stopping {
      assert ended.log == s.log + [returned];
    } else {
      var fence := NeutralizeCall(h.token + 1, o.neutralizeOk);
      assert ended.log == s.log + [returned] + [fence];
      assert ended.claim == Claim(h.token + 1, None);
      AppendKeepsOrder(s.log + [returned], fence);
    }
    assert FencedBeforeSignal(ended.log) && CallsAdvance(ended.log);
  }

  lemma FinishKeepsOrdered(s: Slot, token: nat, normally: bool, o: Oracle)
    requires Owned(s) && Ordered(s)
    ensures Ordered(Finish(s, token, normally, o)) && s.log <= Finish(s, token, normally, o).log
  {
    if s.current.Some? && s.current.value.token == token {
      EndKeepsOrdered(s, normally, o);
      if s.pending.Some? {
        StartKeepsOrdered(EndCurrent(s, normally, o), s.pending.value, o);
      }
    }
  }

  lemma StepKeepsOrdered(s: Slot, e: Event)
    requires Owned(s) && Ordered(s) && Proper(e)
    ensures Ordered(Step(s, e))
    ensures s.log <= Step(s, e).log
  {
    match e
    case ScheduleEvent(id, o) =>
      if s.current.None? {
        StartKeepsOrdered(DropPending(s), id, o);
      } else if s.current.value.phase != Stopping {
        CancelKeepsOrdered(DropPending(s).(pending := Some(id)), s.current.value, o);
      }
    case HaltEvent(o) =>
      if s.current.None? {
        AppendKeepsOrder(s.log, NeutralizeCall(s.claim.token, o.neutralizeOk));
      } else if s.current.value.phase != Stopping {
        CancelKeepsOrdered(DropPending(s), s.current.value, o);
      }
    case RunningEvent(_) =>
    case FinishEvent(token, normally, o) => FinishKeepsOrdered(s, token, normally, o);
  }

  // ---- Conservation and outcomes ----

  function Occurrences(history: seq<Record>, id: string): nat
    decreases |history|
  {
    if history == [] then 0
    else Occurrences(history[..|history| - 1], id) + (if history[|history| - 1].actionId == id then 1 else 0)
  }

  function One(b: bool): nat { if b then 1 else 0 }

  /** How many places hold an action id: current, pending and terminal records together. */
  function Held(s: Slot, id: string): nat {
    One(s.current.Some? && s.current.value.actionId == id) + One(s.pending == Some(id)) + Occurrences(s.history, id)
  }

  function Scheduled(e: Event, id: string): nat {
    One(e.ScheduleEvent? && e.id == id)
  }

  /** How often an id was accepted during a run: at most once when the id factory never repeats. */
  function Accepted(es: seq<Event>, id: string): nat
    decreases |es|
  {
    if es == [] then 0 else Scheduled(es[0], id) + Accepted(es[1..], id)
  }

  lemma OneMoreRecord(history: seq<Record>, r: Record, id: string)
    ensures Occurrences(history + [r], id) == Occurrences(history, id) + One(r.actionId == id)
  {
    assert (history + [r])[..|history|] == history;
  }

  lemma DropPendingConserves(s: Slot, id: string)
    ensures Held(DropPending(s), id) == Held(s, id)
  {
    if s.pending.Some? {
      OneMoreRecord(s.history, Record(s.pending.value, None, Cancelled), id);
    }
  }

  lemma StartConserves(s: Slot, started: string, o: Oracle, id: string)
    requires s.claim.owner.None? && s.current.None? && started != ""
    ensures Held(Start(s, started, o), id) == Held(s, id) + One(started == id)
  {
    OneMoreRecord(s.history, Record(started, Some(s.claim.token + 1), Failed), id);
  }

  lemma FinishConserves(s: Slot, token: nat, normally: bool, o: Oracle, id: string)
    requires Owned(s)
    ensures Held(Finish(s, token, normally, o), id) == Held(s, id)
  {
    if s.current.Some? && s.current.value.token == token {
      var h := s.current.value;
      OneMoreRecord(s.history, Record(h.actionId, Some(token), EndingOf(h.phase, normally)), id);
      if s.pending.Some? {
        StartConserves(EndCurrent(s, normally, o), s.pending.value, o, id);
      }
    }
  }

  lemma ScheduleConserves(s: Slot, started: string, o: Oracle, id: string)
    requires Owned(s) && started != ""
    ensures Held(Schedule(s, started, o), id) == Held(s, id) + One(started == id)
  {
    DropPendingConserves(s, id);
    if s.current.None? {
      StartConserves(DropPending(s), started, o, id);
    }
  }

  lemma HaltConserves(s: Slot, o: Oracle, id: string)
    requires Owned(s)
    ensures Held(Halt(s, o), id) == Held(s, id)
  {
    DropPendingConserves(s, id);
  }

  lemma StepConserves(s: Slot, e: Event, id: string)
    requires Owned(s) && Proper(e)
    ensures Held(Step(s, e), id) == Held(s, id) + Scheduled(e, id)
  {
    match e
    case ScheduleEvent(started, o) => ScheduleConserves(s, started, o, id);
    case HaltEvent(o) => HaltConserves(s, o, id);
    case RunningEvent(_) =>
    case FinishEvent(token, normally, o) => FinishConserves(s, token, normally, o, id);
  }

  /** A record says how its action really ended, judged by what was logged for its lease. */
  ghost predicate Truthful(r: Record, log: seq<Effect>) {
    match r.token
    case None => r.ending == Cancelled
    case Some(t) =>
      && (r.ending == Completed <==> ExecutorReturned(t, true) in log && CancelSignal(t) !in log)
      && (r.ending == Cancelled <==> ExecutorReturned(t, true) in log && CancelSignal(t) in log)
      && (r.ending == Failed <==> ExecutorReturned(t, false) in log || AuthorizeCall(t, r.actionId, false) in log)
  }

  ghost predicate Closed(r: Record, s: Slot) {
    r.token.Some? ==>
      && r.token.value <= s.claim.token
      && (s.claim.owner.Some? ==> r.token.value < s.claim.token)
      && (s.current.Some? ==> r.token.value < s.current.value.token)
  }

  /** Nothing has been logged yet about the end of the current action, except its own cancel signal. */
  ghost predicate Open(h: Handle, log: seq<Effect>) {
    && (forall n :: ExecutorReturned(h.token, n) !in log)
    && (forall id :: AuthorizeCall(h.token, id, false) !in log)
    && (CancelSignal(h.token) in log <==> h.phase == Stopping)
  }

  ghost predicate Accounted(s: Slot) {
    && (forall r :: r in s.history ==> Truthful(r, s.log) && Closed(r, s))
    && (s.current.Some? ==> Open(s.current.value, s.log))
  }

  /** An effect that says nothing about how the lease `t` ended. */
  ghost predicate Silent(e: Effect, t: nat) {
    e.NeutralizeCall? || e.StartThread? || e.token != t
  }

  lemma SilenceKeepsTruth(r: Record, log: seq<Effect>, more: seq<Effect>)
    requires Truthful(r, log)
    requires r.token.Some? ==> forall e :: e in more ==> Silent(e, r.token.value)
    ensures Truthful(r, log + more)
  {
  }

  lemma HistoryStaysTruthful(s: Slot, more: seq<Effect>)
    requires forall r :: r in s.history ==> Truthful(r, s.log)
    requires forall r, e :: r in s.history && r.token.Some? && e in more ==> Silent(e, r.token.value)
    ensures forall r :: r in s.history ==> Truthful(r, s.log + more)
  {
    forall r | r in s.history ensures Truthful(r, s.log + more) {
      SilenceKeepsTruth(r, s.log, more);
    }
  }

  lemma StartKeepsAccounted(s: Slot, id: string, o: Oracle)
    requires Accounted(s) && LogBelowClaim(s) && s.claim.owner.None? && s.current.None? && id != ""
    ensures Accounted(Start(s, id, o))
  {
    var token := s.claim.token + 1;
    var next := Start(s, id, o);
    if o.authorizeOk {
      assert next == Launch(s.(claim := Claim(token, Some(id))), id, token);
      HistoryStaysTruthful(s, [AuthorizeCall(token, id, true), StartThread(token)]);
    } else {
      var more := [AuthorizeCall(token, id, false), NeutralizeCall(token + 1, o.rollbackOk)];
      assert next.log == s.log + more && next.claim == Claim(token + 1, None);
      HistoryStaysTruthful(s, more);
      var r := Record(id, Some(token), Failed);
      assert AuthorizeCall(token, id, false) in s.log + more;
      assert Truthful(r, s.log + more);
    }
  }

  lemma CancelKeepsAccounted(s: Slot, h: Handle, o: Oracle)
    requires Accounted(s) && s.current == Some(h) && s.claim == Claim(h.token, Some(h.actionId))
    ensures Accounted(CancelCurrent(s, h, o))
  {
    HistoryStaysTruthful(s, [NeutralizeCall(h.token + 1, o.neutralizeOk), CancelSignal(h.token)]);
  }

  lemma EndKeepsAccounted(s: Slot, normally: bool, o: Oracle)
    requires Owned(s) && Ordered(s) && Accounted(s) && s.current.Some?
    ensures Accounted(EndCurrent(s, normally, o))
  {
    var h := s.current.value;
    var ended := EndCurrent(s, normally, o);
    var more := [ExecutorReturned(h.token, normally)]
      + (if h.phase == Stopping then [] else [NeutralizeCall(h.token + 1, o.neutralizeOk)]);
    assert ended.log == s.log + more;
    HistoryStaysTruthful(s, more);
    OwnEndIsTruthful(h, s.log, more, normally);
  }

  lemma OwnEndIsTruthful(h: Handle, log: seq<Effect>, more: seq<Effect>, normally: bool)
    requires Open(h, log)
    requires forall e :: e in more ==> e.NeutralizeCall? || e == ExecutorReturned(h.token, normally)
    requires ExecutorReturned(h.token, normally) in more
    ensures Truthful(Record(h.actionId, Some(h.token), EndingOf(h.phase, normally)), log + more)
  {
    assert ExecutorReturned(h.token, !normally) !in log + more;
    assert ExecutorReturned(h.token, normally) in log + more;
  }

  lemma FinishKeepsAccounted(s: Slot, token: nat, normally: bool, o: Oracle)
    requires Owned(s) && Ordered(s) && Accounted(s)
    ensures Accounted(Finish(s, token, normally, o))
  {
    if s.current.Some? && s.current.value.token == token {
      EndKeepsAccounted(s, normally, o);
      if s.pending.Some? {
        EndKeepsOrdered(s, normally, o);
        StartKeepsAccounted(EndCurrent(s, normally, o), s.pending.value, o);
      }
    }
  }

  lemma StepKeepsAccounted(s: Slot, e: Event)
    requires Owned(s) && Ordered(s) && Accounted(s) && Proper(e)
    ensures Accounted(Step(s, e))
  {
    assert Accounted(DropPending(s));
    match e
    case ScheduleEvent(id, o) =>
      if s.current.None? {
        StartKeepsAccounted(DropPending(s), id, o);
      } else if s.current.value.phase != Stopping {
        CancelKeepsAccounted(DropPending(s).(pending := Some(id)), s.current.value, o);
      }
    case HaltEvent(o) =>
      if s.current.None? {
        HistoryStaysTruthful(DropPending(s), [NeutralizeCall(s.claim.token, o.neutralizeOk)]);
      } else if s.current.value.phase != Stopping {
        CancelKeepsAccounted(DropPending(s), s.current.value, o);
      }
    case RunningEvent(_) =>
    case FinishEvent(token, normally, o) => FinishKeepsAccounted(s, token, normally, o);
  }

  // ---- Cancel signals ----

  ghost predicate LaunchedAt(log: seq<Effect>, i: nat, token: nat) {
    i < |log| && log[i].AuthorizeCall? && log[i].token == token && log[i].ok
  }

  /** A lease is signalled at most once, after its authorization succeeded. */
  ghost predicate SignalsFollowLaunch(log: seq<Effect>) {
    && (forall i :: 0 <= i < |log| && log[i].CancelSignal? ==>
          exists j :: 0 <= j < i && LaunchedAt(log, j, log[i].token))
    && (forall i, j :: 0 <= i < j < |log| && log[i].CancelSignal? && log[j].CancelSignal? ==>
          log[i].token != log[j].token)
  }

  lemma SignalledOnce(log: seq<Effect>, i: nat, j: nat)
    requires SignalsFollowLaunch(log) && i < |log| && j < |log|
    requires log[i].CancelSignal? && log[j] == log[i]
    ensures i == j
  {
  }

  ghost predicate Signalled(s: Slot) {
    && SignalsFollowLaunch(s.log)
    && (s.current.Some? ==> exists j :: 0 <= j < |s.log| && LaunchedAt(s.log, j, s.current.value.token))
  }

  lemma LaunchStays(log: seq<Effect>, more: seq<Effect>, token: nat)
    requires exists j :: 0 <= j < |log| && LaunchedAt(log, j, token)
    ensures exists j :: 0 <= j < |log| && LaunchedAt(log + more, j, token)
  {
    var j :| 0 <= j < |log| && LaunchedAt(log, j, token);
    assert LaunchedAt(log + more, j, token);
  }

  lemma QuietEffectKeepsSignals(log: seq<Effect>, e: Effect)
    requires SignalsFollowLaunch(log) && !e.CancelSignal?
    ensures SignalsFollowLaunch(log + [e])
  {
    var n := log + [e];
    forall i | 0 <= i < |n| && n[i].CancelSignal? ensures exists j :: 0 <= j < i && LaunchedAt(n, j, n[i].token) {
      var j :| 0 <= j < i && LaunchedAt(log, j, log[i].token);
      assert LaunchedAt(n, j, n[i].token);
    }
  }

  lemma SignalKeepsSignals(log: seq<Effect>, token: nat)
    requires SignalsFollowLaunch(log) && CancelSignal(token) !in log
    requires exists j :: 0 <= j < |log| && LaunchedAt(log, j, token)
    ensures SignalsFollowLaunch(log + [CancelSignal(token)])
  {
    var n := log + [CancelSignal(token)];
    LaunchStays(log, [CancelSignal(token)], token);
    forall i | 0 <= i < |n| && n[i].CancelSignal? ensures exists j :: 0 <= j < i && LaunchedAt(n, j, n[i].token) {
      if i < |log| {
        var j :| 0 <= j < i && LaunchedAt(log, j, log[i].token);
        assert LaunchedAt(n, j, n[i].token);
      }
    }
    forall i, j | 0 <= i < j < |n| && n[i].CancelSignal? && n[j].CancelSignal? ensures n[i].token != n[j].token {
      if j == |log| { assert n[i] in log; }
    }
  }

  lemma StartKeepsSignalled(s: Slot, id: string, o: Oracle)
    requires SignalsFollowLaunch(s.log) && s.claim.owner.None? && s.current.None? && id != ""
    ensures Signalled(Start(s, id, o))
  {
    var token, next := s.claim.token + 1, Start(s, id, o);
    var call := AuthorizeCall(token, id, o.authorizeOk);
    var after := if o.authorizeOk then StartThread(token) else NeutralizeCall(token + 1, o.rollbackOk);
    QuietEffectKeepsSignals(s.log, call);
    QuietEffectKeepsSignals(s.log + [call], after);
    assert next.log == s.log + [call] + [after];
    if o.authorizeOk {
      assert next.current == Some(Handle(id, token, Preparing));
      assert LaunchedAt(next.log, |s.log|, token);
    }
  }

  lemma CancelKeepsSignalled(s: Slot, h: Handle, o: Oracle)
    requires Signalled(s) && s.current == Some(h) && s.claim == Claim(h.token, Some(h.actionId))
    requires CancelSignal(h.token) !in s.log
    ensures Signalled(CancelCurrent(s, h, o))
  {
    var next, fence := CancelCurrent(s, h, o), NeutralizeCall(h.token + 1, o.neutralizeOk);
    LaunchStays(s.log, [fence], h.token);
    QuietEffectKeepsSignals(s.log, fence);
    SignalKeepsSignals(s.log + [fence], h.token);
    assert next.log == s.log + [fence] + [CancelSignal(h.token)];
    LaunchStays(s.log + [fence], [CancelSignal(h.token)], h.token);
  }

  lemma FinishKeepsSignalled(s: Slot, token: nat, normally: bool, o: Oracle)
    requires Owned(s) && Signalled(s)
    ensures Signalled(Finish(s, token, normally, o))
  {
    if s.current.Some? && s.current.value.token == token {
      var h, ended := s.current.value, EndCurrent(s, normally, o);
      var returned, fence := ExecutorReturned(h.token, normally), NeutralizeCall(h.token + 1, o.neutralizeOk);
      QuietEffectKeepsSignals(s.log, returned);
      QuietEffectKeepsSignals(s.log + [returned], fence);
      assert ended.log == s.log + [returned] || ended.log == s.log + [returned] + [fence];
      if s.pending.Some? {
        StartKeepsSignalled(ended, s.pending.value, o);
      }
    }
  }

  lemma StepKeepsSignalled(s: Slot, e: Event)
    requires Owned(s) && Accounted(s) && Signalled(s) && Proper(e)
    ensures Signalled(Step(s, e))
  {
    match e
    case ScheduleEvent(id, o) =>
      if s.current.None? {
        StartKeepsSignalled(DropPending(s), id, o);
      } else if s.current.value.phase != Stopping {
        CancelKeepsSignalled(DropPending(s).(pending := Some(id)), s.current.value, o);
      }
    case HaltEvent(o) =>
      if s.current.None? {
        QuietEffectKeepsSignals(s.log, NeutralizeCall(s.claim.token, o.neutralizeOk));
      } else if s.current.value.phase != Stopping {
        CancelKeepsSignalled(DropPending(s), s.current.value, o);
      }
    case RunningEvent(_) =>
    case FinishEvent(token, normally, o) => FinishKeepsSignalled(s, token, normally, o);
  }

  // ---- Every reachable state ----

  ghost predicate Invariant(s: Slot) {
    Owned(s) && Ordered(s) && Accounted(s) && Signalled(s)
  }

  lemma StepKeepsInvariant(s: Slot, e: Event)
    requires Invariant(s) && Proper(e)
    ensures Invariant(Step(s, e)) && s.log <= Step(s, e).log
  {
    StepKeepsOwned(s, e);
    StepKeepsOrdered(s, e);
    StepKeepsAccounted(s, e);
    StepKeepsSignalled(s, e);
  }

  lemma {:induction false} RunKeepsInvariant(s: Slot, es: seq<Event>)
    requires Invariant(s) && forall e :: e in es ==> Proper(e)
    ensures Invariant(Run(s, es))
    ensures forall id :: Held(Run(s, es), id) == Held(s, id) + Accepted(es, id)
    decreases |es|
  {
    if es != [] {
      StepKeepsInvariant(s, es[0]);
      forall id ensures Held(Step(s, es[0]), id) == Held(s, id) + Scheduled(es[0], id) {
        StepConserves(s, es[0], id);
      }
      RunKeepsInvariant(Step(s, es[0]), es[1..]);
    }
  }

  lemma IdleIsSound()
    ensures Invariant(IDLE)
  {
  }

  /**
   In every reachable state the owner is the current action exactly while that action is preparing or
   running, and the resource manager has never had to refuse the supervisor.
   */
  lemma OwnerIsTheLiveAction(es: seq<Event>)
    requires forall e :: e in es ==> Proper(e)
    ensures
      var s := Run(IDLE, es);
      && !s.fault
      && (s.claim.owner.Some? <==> s.current.Some? && s.current.value.phase != Stopping)
      && (s.claim.owner.Some? ==> s.claim == Claim(s.current.value.token, Some(s.current.value.actionId)))
      && (s.pending.Some? ==> s.current.Some? && s.current.value.phase == Stopping)
  {
    RunKeepsInvariant(IDLE, es);
  }

  /** An accepted action id is in exactly one place: current, pending, or one terminal record. */
  lemma AcceptedOnceHeldOnce(es: seq<Event>, id: string)
    requires forall e :: e in es ==> Proper(e)
    ensures Held(Run(IDLE, es), id) == Accepted(es, id)
  {
    RunKeepsInvariant(IDLE, es);
    assert Held(IDLE, id) == 0;
  }

  /** Every terminal record tells the truth about its executor and its cancel signal. */
  lemma RecordsAreTruthful(es: seq<Event>, r: Record)
    requires forall e :: e in es ==> Proper(e)
    requires r in Run(IDLE, es).history
    ensures Truthful(r, Run(IDLE, es).log)
  {
    RunKeepsInvariant(IDLE, es);
  }

  /** The executor of a cancelled action sees the signal only after its lease was fenced. */
  lemma FencingPrecedesCancel(es: seq<Event>, i: nat)
    requires forall e :: e in es ==> Proper(e)
    requires i < |Run(IDLE, es).log| && Run(IDLE, es).log[i].CancelSignal?
    ensures i > 0 && IsFence(Run(IDLE, es).log[i - 1], Run(IDLE, es).log[i].token)
  {
    RunKeepsInvariant(IDLE, es);
  }

  // ---- After a halt ----

  ghost predicate Quiet(s: Slot) {
    s.pending.None? && (s.current.None? || s.current.value.phase == Stopping)
  }

  /** Once halted, no executor starts and nothing is authorized until another bundle arrives. */
  lemma {:induction false} NothingStartsAfterHalt(s: Slot, es: seq<Event>)
    requires Quiet(s) && forall e :: e in es ==> !e.ScheduleEvent?
    ensures Quiet(Run(s, es)) && s.log <= Run(s, es).log
    ensures forall i :: |s.log| <= i < |Run(s, es).log| ==>
                          !Run(s, es).log[i].StartThread? && !Run(s, es).log[i].AuthorizeCall?
    decreases |es|
  {
    if es != [] {
      var next := Step(s, es[0]);
      assert Quiet(next) && s.log <= next.log;
      assert forall i :: |s.log| <= i < |next.log| ==> !next.log[i].StartThread? && !next.log[i].AuthorizeCall?;
      NothingStartsAfterHalt(next, es[1..]);
    }
  }

  lemma HaltIsQuiet(s: Slot, o: Oracle)
    requires Owned(s)
    ensures Quiet(Halt(s, o))
  {
  }
}
