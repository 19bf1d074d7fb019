/**
 The Mac-side action supervisor for one output resource. A lock-held section is one
 transition; the calls it makes while holding the lock (authorize, neutralize), the threads
 it starts and the cancel signals it raises are appended to `log` in the order the code
 performs them. Whether an output call raises is decided by an `Oracle`.
 */
module SupervisorModel {
  import opened Contracts
  import opened ControlClaims

  datatype Phase = Preparing | Running | Stopping

  /** A started action; its lease token identifies it. */
  datatype Handle = Handle(actionId: string, token: nat, phase: Phase)

  datatype Ending = Completed | Cancelled | Failed

  /** A terminal record; `token` is `None` for an action that never got a lease. */
  datatype Record = Record(actionId: string, token: Option<nat>, ending: Ending)

  datatype Effect =
    | AuthorizeCall(token: nat, actionId: string, ok: bool)
    | NeutralizeCall(token: nat, ok: bool)
    | StartThread(token: nat)
    | CancelSignal(token: nat)
    | ExecutorReturned(token: nat, normally: bool)

  /** Which of the calls a section may make succeed. */
  datatype Oracle = Oracle(authorizeOk: bool, neutralizeOk: bool, rollbackOk: bool)

  /** `fault` records that the resource manager raised: busy, or a foreign owner. */
  datatype Slot = Slot(
    claim: Claim,
    current: Option<Handle>,
    pending: Option<string>,
    history: seq<Record>,
    log: seq<Effect>,
    fault: bool)

  const IDLE := Slot(UNCLAIMED, None, None, [], [], false)

  function Launch(s: Slot, id: string, token: nat): Slot {
    s.(current := Some(Handle(id, token, Preparing)),
       log := s.log + [AuthorizeCall(token, id, true), StartThread(token)])
  }

  /** A refused authorization gives the lease back, and fences it in case the refusal was lost on the way. */
  function RollBack(s: Slot, id: string, token: nat, rollbackOk: bool): Slot {
    var (claim, _) := Invalidate(s.claim, Some(id));
    s.(claim := claim,
       history := s.history + [Record(id, Some(token), Failed)],
       log := s.log + [AuthorizeCall(token, id, false), NeutralizeCall(claim.token, rollbackOk)])
  }

  function Start(s: Slot, id: string, o: Oracle): Slot {
    var (claim, result) := Acquire(s.claim, id);
    if !result.Acquired? then s.(fault := true)
    else if o.authorizeOk then Launch(s.(claim := claim), id, claim.token)
    else RollBack(s.(claim := claim), id, claim.token, o.rollbackOk)
  }

  /** Fence, neutralize, and only then let the executor see the cancel signal. */
  function CancelCurrent(s: Slot, h: Handle, o: Oracle): Slot {
    var (claim, result) := Invalidate(s.claim, Some(h.actionId));
    if !result.Invalidated? then s.(fault := true)
    else
      s.(claim := claim,
         current := Some(h.(phase := Stopping)),
         log := s.log + [NeutralizeCall(claim.token, o.neutralizeOk), CancelSignal(h.token)])
  }

  function DropPending(s: Slot): Slot {
    if s.pending.None? then s
    else s.(pending := None, history := s.history + [Record(s.pending.value, None, Cancelled)])
  }

  function Schedule(s: Slot, id: string, o: Oracle): Slot {
    var cleared := DropPending(s);
    if s.current.None? then Start(cleared, id, o)
    else
      var queued := cleared.(pending := Some(id));
      if s.current.value.phase == Stopping then queued else CancelCurrent(queued, s.current.value, o)
  }

  function Halt(s: Slot, o: Oracle): Slot {
    var cleared := DropPending(s);
    if s.current.None? then cleared.(log := s.log + [NeutralizeCall(s.claim.token, o.neutralizeOk)])
    else if s.current.value.phase == Stopping then cleared
    else CancelCurrent(cleared, s.current.value, o)
  }

  function MarkRunning(s: Slot, token: nat): Slot {
    if s.current.None? || s.current.value.token != token || s.current.value.phase != Preparing then s
    else s.(current := Some(s.current.value.(phase := Running)))
  }

  function EndingOf(phase: Phase, normally: bool): Ending {
    if !normally then Failed else if phase == Stopping then Cancelled else Completed
  }

  /** The resource is given up before the record is written, unless a cancel already gave it up. */
  function GiveUp(s: Slot, h: Handle, o: Oracle): Slot {
    if h.phase == Stopping then s
    else
      var (claim, result) := Invalidate(s.claim, Some(h.actionId));
      if !result.Invalidated? then s.(fault := true)
      else s.(claim := claim, log := s.log + [NeutralizeCall(claim.token, o.neutralizeOk)])
  }

  /** Record the current action's end and free its place, dropping the queue entry that replaces it. */
  function EndCurrent(s: Slot, normally: bool, o: Oracle): Slot
    requires s.current.Some?
  {
    var h := s.current.value;
    var released := GiveUp(s.(log := s.log + [ExecutorReturned(h.token, normally)]), h, o);
    if released.fault then released
    else
      released.(
      current := None,
      pending := None,
      history := s.history + [Record(h.actionId, Some(h.token), EndingOf(h.phase, normally))])
  }

  function Finish(s: Slot, token: nat, normally: bool, o: Oracle): Slot {
    if s.current.None? || s.current.value.token != token then s
    else
      var ended := EndCurrent(s, normally, o);
      if ended.fault || s.pending.None? then ended else Start(ended, s.pending.value, o)
  }
}
