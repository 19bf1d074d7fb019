/** The supervisor object: tables updated under its lock, proved against SupervisorModel slot by slot. */
module CharacterSupervisor {
  import opened Contracts
  import opened ControlClaims
  import opened ControlResources
  import opened SupervisorModel

  /** One action of a bundle, already given its id. */
  datatype Request = Request(resource: Resource, actionId: string)

  const NO_HISTORY: map<Resource, seq<Record>> := map r: Resource :: []
  ghost const IDLE_SLOTS: map<Resource, Slot> := map r: Resource :: IDLE

  function Lookup<K, V>(m: map<K, V>, k: K): Option<V> {
    if k in m then Some(m[k]) else None
  }

  class CharacterSupervisor {
    const resources: ControlResourceManager
    const managed: set<Resource>
    var current: map<Resource, Handle>
    var pending: map<Resource, string>
    var history: map<Resource, seq<Record>>
    var faults: set<Resource>
    /** The abstract value of every slot, including the order of its effects. */
    ghost var slots: map<Resource, Slot>

    ghost predicate Valid()
      reads this, resources
    {
      && resources.Valid()
      && (forall r: Resource :: r in slots && r in history)
      && (forall r: Resource :: Matches(r))
    }

    /** The tables hold what the slot says. */
    ghost predicate Matches(r: Resource)
      requires resources.Valid() && r in slots && r in history
      reads this, resources
    {
      && slots[r].claim == resources.ClaimOf(r)
      && slots[r].current == Lookup(current, r)
      && slots[r].pending == Lookup(pending, r)
      && slots[r].history == history[r]
      && slots[r].fault == (r in faults)
    }

    constructor (managed: set<Resource>)
      ensures Valid() && this.managed == managed && fresh(resources)
      ensures slots == IDLE_SLOTS
    {
      var manager := new ControlResourceManager();
      resources, this.managed := manager, managed;
      current, pending, faults := map[], map[], {};
      history, slots := NO_HISTORY, IDLE_SLOTS;
    }

    ghost predicate Admissible(turnId: string, requests: seq<Request>) {
      && turnId != "" && 1 <= |requests| <= 2
      && (forall q :: q in requests ==> q.resource in managed && q.actionId != "")
      && (|requests| == 2 ==> requests[0].resource != requests[1].resource)
    }

    /** The action a bundle names for a resource. */
    ghost function Asked(requests: seq<Request>, r: Resource): Option<string>
      decreases |requests|
    {
      if requests == [] then None
      else if requests[|requests| - 1].resource == r then Some(requests[|requests| - 1].actionId)
      else Asked(requests[..|requests| - 1], r)
    }

    /** A resource takes the action named for it, and is untouched when none is. */
    ghost function Served(slot: Slot, asked: Option<string>, o: Oracle): Slot {
      match asked
      case None => slot
      case Some(id) => Schedule(slot, id, o)
    }

    method ApplyBundle(turnId: string, requests: seq<Request>, oracles: map<Resource, Oracle>) returns (accepted: bool)
      requires Valid() && forall r: Resource :: r in oracles
      modifies this, resources
      ensures Valid() && (accepted <==> Admissible(turnId, requests))
      ensures !accepted ==> slots == old(slots)
      ensures accepted ==> AllServed(old(slots), slots, requests, oracles)
    {
      if turnId == "" || |requests| < 1 || 2 < |requests| {
        return false;
      }
      if exists q :: q in requests && (q.resource !in managed || q.actionId == "") {
        return false;
      }
      if |requests| == 2 && requests[0].resource == requests[1].resource {
        return false;
      }
      ScheduleAllLocked(requests, oracles);
      return true;
    }

    ghost predicate AllServed(
        was: map<Resource, Slot>, now: map<Resource, Slot>, requests: seq<Request>, oracles: map<Resource, Oracle>)
      requires forall r: Resource :: r in was && r in now && r in oracles
    {
      forall r: Resource :: now[r] == Served(was[r], Asked(requests, r), oracles[r])
    }

    lemma OneMoreServed(
        was: map<Resource, Slot>, now: map<Resource, Slot>, requests: seq<Request>, oracles: map<Resource, Oracle>,
        q: Request)
      requires (forall r: Resource :: r in was && r in now && r in oracles) && AllServed(was, now, requests, oracles)
      requires Asked(requests, q.resource).None?
      ensures AllServed(was, now[q.resource := Schedule(now[q.resource], q.actionId, oracles[q.resource])],
                        requests + [q], oracles)
    {
      assert (requests + [q])[..|requests|] == requests;
    }

    lemma {:induction false} NotAsked(requests: seq<Request>, r: Resource)
      requires forall q :: q in requests ==> q.resource != r
      ensures Asked(requests, r).None?
      decreases |requests|
    {
      if requests != [] { NotAsked(requests[..|requests| - 1], r); }
    }

    method ScheduleAllLocked(requests: seq<Request>, oracles: map<Resource, Oracle>)
      requires Valid() && (forall r: Resource :: r in oracles)
      requires forall i, j :: 0 <= i < j < |requests| ==> requests[i].resource != requests[j].resource
      modifies this, resources
      ensures Valid() && AllServed(old(slots), slots, requests, oracles)
    {
      ghost var was := slots;
      for i := 0 to |requests|
        invariant Valid() && AllServed(was, slots, requests[..i], oracles)
      {
        var q := requests[i];
        NotAsked(requests[..i], q.resource);
        OneMoreServed(was, slots, requests[..i], oracles, q);
        assert requests[..i + 1] == requests[..i] + [q];
        ScheduleLocked(q.resource, q.actionId, oracles[q.resource]);
      }
      assert requests[..|requests|] == requests;
    }

    /** Queued actions are dropped first; then every managed resource is fenced and neutralized. */
    method HaltAll(oracles: map<Resource, Oracle>)
      requires Valid() && (forall r: Resource :: r in oracles)
      modifies this, resources
      ensures Valid()
      ensures forall r: Resource ::
                slots[r] == if r in managed then Halt(old(slots)[r], oracles[r]) else DropPending(old(slots)[r])
    {
      ghost var was := slots;
      DropAllPendingLocked();
      HaltManagedLocked(oracles);
      forall r: Resource ensures Halt(DropPending(was[r]), oracles[r]) == Halt(was[r], oracles[r]) {
      }
    }

    method HaltManagedLocked(oracles: map<Resource, Oracle>)
      requires Valid() && (forall r: Resource :: r in oracles && slots[r].pending.None?)
      modifies this, resources
      ensures Valid()
      ensures forall r: Resource ::
                slots[r] == if r in managed then Halt(old(slots)[r], oracles[r]) else old(slots)[r]
    {
      var todo := managed;
      while todo != {}
        invariant Valid() && todo <= managed
        invariant forall r: Resource ::
          slots[r] == if r in managed - todo then Halt(old(slots)[r], oracles[r]) else old(slots)[r]
        decreases todo
      {
        var r :| r in todo;
        todo := todo - {r};
        HaltLocked(r, oracles[r]);
      }
    }

    method DropAllPendingLocked()
      requires Valid()
      modifies this`pending, this`history, this`slots
      ensures Valid() && forall r: Resource :: slots[r] == DropPending(old(slots)[r])
    {
      ghost var was := slots;
      forall r: Resource ensures r !in pending ==> DropPending(was[r]) == was[r] {
        assert Matches(r);
      }
      var queued := pending.Keys;
      while queued != {}
        invariant Valid()
        invariant forall r: Resource :: slots[r] == if r in queued then was[r] else DropPending(was[r])
        decreases queued
      {
        var r :| r in queued;
        queued := queued - {r};
        DropPendingLocked(r);
      }
    }

    method HaltLocked(r: Resource, o: Oracle)
      requires Valid() && slots[r].pending.None?
      modifies this, resources
      ensures Valid() && slots == old(slots)[r := Halt(old(slots)[r], o)]
    {
      assert Matches(r);
      if r !in current {
        slots := slots[r := Halt(slots[r], o)];
        forall other: Resource ensures Matches(other) {
          assert old(Matches(other));
        }
      } else if current[r].phase != Stopping {
        CancelCurrentLocked(r, o);
      }
    }

    method MarkRunning(r: Resource, token: nat)
      requires Valid()
      modifies this`current, this`slots
      ensures Valid() && slots == old(slots)[r := SupervisorModel.MarkRunning(old(slots)[r], token)]
    {
      assert Matches(r);
      if r in current && current[r].token == token && current[r].phase == Preparing {
        current := current[r := current[r].(phase := Running)];
        slots := slots[r := SupervisorModel.MarkRunning(slots[r], token)];
      }
      forall other: Resource ensures Matches(other) {
        assert old(Matches(other));
      }
    }

    method FinishHandle(r: Resource, token: nat, normally: bool, o: Oracle)
      requires Valid() && r !in faults
      modifies this, resources
      ensures Valid() && slots == old(slots)[r := Finish(old(slots)[r], token, normally, o)]
    {
      assert Matches(r);
      if r !in current || current[r].token != token {
        return;
      }
      var next := Lookup(pending, r);
      EndCurrentLocked(r, normally, o);
      assert Matches(r);
      if next.Some? && r !in faults {
        StartLocked(r, next.value, o);
      }
    }

    method EndCurrentLocked(r: Resource, normally: bool, o: Oracle)
      requires Valid() && r !in faults && slots[r].current.Some?
      modifies this, resources
      ensures Valid() && slots == old(slots)[r := EndCurrent(old(slots)[r], normally, o)]
    {
      assert Matches(r);
      var handle := current[r];
      LogReturn(r, handle.token, normally);
      GiveUpLocked(r, handle, o);
      assert Matches(r);
      if r !in faults {
        RecordEndLocked(r, Record(handle.actionId, Some(handle.token), EndingOf(handle.phase, normally)));
      }
    }

    method RecordEndLocked(r: Resource, record: Record)
      requires Valid()
      modifies this`history, this`current, this`pending, this`slots
      ensures Valid()
      ensures slots == old(slots)[r := old(slots)[r].(
                current := None, pending := None, history := old(slots)[r].history + [record])]
    {
      assert Matches(r);
      history := history[r := history[r] + [record]];
      current := current - {r};
      pending := pending - {r};
      slots := slots[r := slots[r].(current := None, pending := None, history := history[r])];
      forall other: Resource ensures Matches(other) {
        assert old(Matches(other));
      }
    }

    ghost method LogReturn(r: Resource, token: nat, normally: bool)
      requires Valid()
      modifies this`slots
      ensures Valid()
      ensures slots == old(slots)[r := old(slots)[r].(log := old(slots)[r].log + [ExecutorReturned(token, normally)])]
    {
      slots := slots[r := slots[r].(log := slots[r].log + [ExecutorReturned(token, normally)])];
      forall other: Resource ensures Matches(other) {
        assert old(Matches(other));
      }
    }

    method GiveUpLocked(r: Resource, handle: Handle, o: Oracle)
      requires Valid()
      modifies this`faults, this`slots, resources
      ensures Valid() && slots == old(slots)[r := GiveUp(old(slots)[r], handle, o)]
    {
      assert Matches(r);
      if handle.phase != Stopping {
        slots := slots[r := GiveUp(slots[r], handle, o)];
        var given := resources.Invalidate(r, Some(handle.actionId));
        if !given.Invalidated? {
          faults := faults + {r};
        }
        forall other: Resource ensures Matches(other) {
          assert old(Matches(other));
        }
      }
    }

    method ScheduleLocked(r: Resource, id: string, o: Oracle)
      requires Valid()
      modifies this, resources
      ensures Valid() && slots == old(slots)[r := Schedule(old(slots)[r], id, o)]
    {
      DropPendingLocked(r);
      assert Matches(r);
      if r !in current {
        StartLocked(r, id, o);
      } else {
        QueueLocked(r, id);
        assert Matches(r);
        if current[r].phase != Stopping {
          CancelCurrentLocked(r, o);
        }
      }
    }

    method QueueLocked(r: Resource, id: string)
      requires Valid()
      modifies this`pending, this`slots
      ensures Valid() && slots == old(slots)[r := old(slots)[r].(pending := Some(id))]
    {
      pending := pending[r := id];
      slots := slots[r := slots[r].(pending := Some(id))];
      forall other: Resource ensures Matches(other) {
        assert old(Matches(other));
      }
    }

    method DropPendingLocked(r: Resource)
      requires Valid()
      modifies this`pending, this`history, this`slots
      ensures Valid() && slots == old(slots)[r := DropPending(old(slots)[r])]
    {
      assert Matches(r);
      if r in pending {
        slots := slots[r := DropPending(slots[r])];
        history := history[r := history[r] + [Record(pending[r], None, Cancelled)]];
        pending := pending - {r};
      }
      forall other: Resource ensures Matches(other) {
        assert old(Matches(other));
      }
    }

    method StartLocked(r: Resource, id: string, o: Oracle)
      requires Valid()
      modifies this`current, this`history, this`faults, this`slots, resources
      ensures Valid() && slots == old(slots)[r := Start(old(slots)[r], id, o)]
    {
      var lease := AcquireLocked(r, id);
      if lease.Acquired? {
        if o.authorizeOk {
          LaunchLocked(r, id, lease.token);
        } else {
          RollBackLocked(r, id, lease.token, o.rollbackOk);
        }
      }
    }

    /** Take the resource for this action; a resource manager that refuses leaves a fault behind. */
    method AcquireLocked(r: Resource, id: string) returns (lease: AcquireResult)
      requires Valid()
      modifies this`faults, this`slots, resources
      ensures Valid() && lease == Acquire(old(slots)[r].claim, id).1
      ensures slots == old(slots)[r :=
                if lease.Acquired? then old(slots)[r].(claim := Acquire(old(slots)[r].claim, id).0)
                else old(slots)[r].(fault := true)]
    {
      assert Matches(r);
      lease := resources.Acquire(r, id);
      if lease.Acquired? {
        slots := slots[r := slots[r].(claim := Acquire(slots[r].claim, id).0)];
      } else {
        slots := slots[r := slots[r].(fault := true)];
        faults := faults + {r};
      }
      forall other: Resource ensures Matches(other) {
        assert old(Matches(other));
      }
    }

    method LaunchLocked(r: Resource, id: string, token: nat)
      requires Valid()
      modifies this`current, this`slots
      ensures Valid() && slots == old(slots)[r := Launch(old(slots)[r], id, token)]
    {
      assert Matches(r);
      current := current[r := Handle(id, token, Preparing)];
      slots := slots[r := Launch(slots[r], id, token)];
      forall other: Resource ensures Matches(other) {
        assert old(Matches(other));
      }
    }

    /** A refused authorization gives the resource back and is recorded as failed. */
    method RollBackLocked(r: Resource, id: string, token: nat, rollbackOk: bool)
      requires Valid()
      modifies this`history, this`slots, resources
      ensures Valid() && slots == old(slots)[r := RollBack(old(slots)[r], id, token, rollbackOk)]
    {
      assert Matches(r);
      var back := resources.Invalidate(r, Some(id));
      history := history[r := history[r] + [Record(id, Some(token), Failed)]];
      slots := slots[r := RollBack(slots[r], id, token, rollbackOk)];
      forall other: Resource ensures Matches(other) {
        assert old(Matches(other));
      }
    }

    method CancelCurrentLocked(r: Resource, o: Oracle)
      requires Valid() && r in current
      modifies this`current, this`faults, this`slots, resources
      ensures Valid() && slots == old(slots)[r := CancelCurrent(old(slots)[r], old(current[r]), o)]
    {
      assert Matches(r);
      slots := slots[r := CancelCurrent(slots[r], current[r], o)];
      var fenced := resources.Invalidate(r, Some(current[r].actionId));
      if fenced.Invalidated? {
        current := current[r := current[r].(phase := Stopping)];
      } else {
        faults := faults + {r};
      }
      forall other: Resource ensures Matches(other) {
        assert old(Matches(other));
      }
    }
  }
}
