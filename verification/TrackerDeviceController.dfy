/**
 The tracker controller object, one method per locked section, proved against TrackerModel. A caller's local
 variables are method parameters; which thread is where, who holds the I/O lock and what reached the device
 are ghost.
 */
module TrackerDeviceController {
  import opened Contracts
  import opened TrackerModel

  class TrackerDeviceController {
    const safe: Pose
    var target: Pose
    var mode: Mode
    var running: bool
    var state: State
    var closed: bool
    var hasThread: bool
    var targetRevision: nat
    var appliedRevision: int
    ghost var io: IoLock
    ghost var phases: map<nat, Phase>
    ghost var targets: seq<Pose>
    ghost var written: seq<Pose>

    ghost function Model(): Tracker
      reads this
    {
      Tracker(safe, target, mode, running, state, closed, hasThread, targetRevision, appliedRevision,
              io, phases, targets, written)
    }

    constructor (safe: Pose)
      ensures Model() == New(safe)
    {
      this.safe, target, mode := safe, safe, SafeMode;
      running, state, closed, hasThread := false, Stopped, false, false;
      targetRevision, appliedRevision := 0, -1;
      io, phases, targets, written := Free, map[], [safe], [];
    }

    /** The device sink: `result` says whether it raised, and whether the frame reached the device. */
    method Write(frame: Pose, result: SinkResult) returns (ok: bool)
      modifies this`written
      ensures Model() == TrackerModel.Write(old(Model()), frame, result) && ok == result.Delivered?
    {
      if result.Delivered? || result.reached {
        written := written + [frame];
      }
      ok := result.Delivered?;
    }

    method Send(frame: Pose) returns (ok: bool)
      modifies this
      ensures Model() == Step(old(Model()), TrackerModel.Send(frame))
      ensures ok <==> old(running) && !old(closed)
    {
      if closed || !running {
        return false;
      }
      target, mode, targetRevision := frame, ActionMode, targetRevision + 1;
      targets := targets + [frame];
      return true;
    }

    /** Returns whether the second section must follow. */
    method NeutralizeTarget(ghost t: nat) returns (waits: bool)
      requires !Busy(Model(), t)
      modifies this
      ensures Model() == Step(old(Model()), TrackerModel.NeutralizeTarget(t))
      ensures waits <==> In(Model(), t, NeutralizeWaiting)
    {
      if closed {
        return false;
      }
      target, mode, targetRevision := safe, SafeMode, targetRevision + 1;
      targets := targets + [safe];
      if running {
        phases := phases[t := NeutralizeWaiting];
      }
      return running;
    }

    method NeutralizeWrite(ghost t: nat, result: SinkResult) returns (ok: bool)
      requires io.Free? && In(Model(), t, NeutralizeWaiting)
      modifies this
      ensures Model() == Step(old(Model()), TrackerModel.NeutralizeWrite(t, result)) && ok == result.Delivered?
    {
      ok := Write(safe, result);
      phases := if ok then phases - {t} else phases[t := RecordPending];
    }

    /** Take the I/O lock, then read the target: an older queued flush cannot overwrite a finished transition. */
    method FlushTake(ghost t: nat) returns (taken: Option<(Pose, nat)>)
      requires io.Free? && !Busy(Model(), t)
      modifies this`io
      ensures Model() == Step(old(Model()), TrackerModel.FlushTake(t))
      ensures taken.Some? <==> running && !closed
      ensures taken.Some? ==> io == Taken(t, taken.value.0, taken.value.1)
    {
      if !running || closed {
        return None;
      }
      io := Taken(t, target, targetRevision);
      return Some((target, targetRevision));
    }

    method FlushWrite(ghost t: nat, frame: Pose, ghost revision: nat, result: SinkResult) returns (ok: bool)
      requires io == Taken(t, frame, revision)
      modifies this`written, this`io
      ensures Model() == Step(old(Model()), TrackerModel.FlushWrite(t, result)) && ok == result.Delivered?
    {
      ok := Write(frame, result);
      io := if result.Delivered? then Wrote(t, revision) else Broke(t);
    }

    method FlushFinish(ghost t: nat, revision: nat, ok: bool)
      requires io == if ok then Wrote(t, revision) else Broke(t)
      modifies this
      ensures Model() == Step(old(Model()), TrackerModel.FlushFinish(t))
    {
      if ok {
        appliedRevision := revision;
      } else {
        running, state := false, Failed;
        phases := phases[t := RecordPending];
      }
      io := Free;
    }

    method RecordFailure(ghost t: nat)
      requires In(Model(), t, RecordPending)
      modifies this
      ensures Model() == Step(old(Model()), TrackerModel.RecordFailure(t))
    {
      running, state := false, Failed;
      phases := phases - {t};
    }

    method StartBegin(ghost t: nat) returns (ok: bool)
      requires !Busy(Model(), t)
      modifies this
      ensures Model() == Step(old(Model()), TrackerModel.StartBegin(t))
      ensures ok <==> !old(hasThread) && !old(closed)
    {
      if hasThread || closed {
        return false;
      }
      state := Starting;
      phases := phases[t := StartWriting];
      return true;
    }

    method StartWrite(ghost t: nat, result: SinkResult) returns (ok: bool)
      requires io.Free? && In(Model(), t, StartWriting)
      modifies this
      ensures Model() == Step(old(Model()), TrackerModel.StartWrite(t, result)) && ok == result.Delivered?
    {
      ok := Write(safe, result);
      phases := phases[t := if ok then StartReady else RecordPending];
    }

    method StartFinish(ghost t: nat)
      requires In(Model(), t, StartReady)
      modifies this
      ensures Model() == Step(old(Model()), TrackerModel.StartFinish(t))
    {
      running, state, mode, hasThread := true, Streaming, SafeMode, true;
      phases := phases - {t};
    }

    method CloseBegin(ghost t: nat) returns (first: bool)
      requires !Busy(Model(), t)
      modifies this
      ensures Model() == Step(old(Model()), TrackerModel.CloseBegin(t)) && first == !old(closed)
    {
      if closed {
        return false;
      }
      closed := true;
      phases := phases[t := CloseWaiting];
      return true;
    }

    method CloseSink(ghost t: nat)
      requires io.Free? && In(Model(), t, CloseWaiting)
      modifies this`phases
      ensures Model() == Step(old(Model()), TrackerModel.CloseSink(t))
    {
      phases := phases[t := CloseRecording];
    }

    method CloseRecord(ghost t: nat, errors: bool)
      requires In(Model(), t, CloseRecording)
      modifies this
      ensures Model() == Step(old(Model()), TrackerModel.CloseRecord(t, errors))
    {
      hasThread, running, state := false, false, if errors then Failed else Stopped;
      phases := phases - {t};
    }
  }
}
