/** The transport object: tables updated under its lock, proved against TransportModel. */
module MacOutputTransport {
  import opened Contracts
  import opened TransportModel

  class MacOutputTransport {
    var session: Option<string>
    var pendingAcks: map<string, PendingAck>
    var pendingCompletions: map<PlaybackKey, PendingCompletion>
    var stale: nat

    ghost function Model(): Transport
      reads this
    {
      Transport(session, pendingAcks, pendingCompletions, stale)
    }

    constructor ()
      ensures Model() == DISCONNECTED
    {
      session, pendingAcks, pendingCompletions, stale := None, map[], map[], 0;
    }

    method OpenSession(sessionId: string) returns (result: CallResult)
      modifies this
      ensures (Model(), result) == TransportModel.OpenSession(old(Model()), sessionId)
    {
      if sessionId == "" || session.Some? {
        return Raised;
      }
      session := Some(sessionId);
      return Returned;
    }

    method CloseSession(sessionId: string) returns (closed: bool)
      modifies this
      ensures (Model(), closed) == TransportModel.CloseSession(old(Model()), sessionId)
    {
      if session != Some(sessionId) {
        return false;
      }
      session := None;
      ghost var acks, completions := pendingAcks, pendingCompletions;
      var ids := pendingAcks.Keys;
      while ids != {}
        invariant session == None && pendingCompletions == completions && stale == old(stale)
        invariant ids <= pendingAcks.Keys == acks.Keys
        invariant forall id :: id in acks ==>
                  pendingAcks[id] == if id in ids then acks[id] else acks[id].(failed := true)
        decreases ids
      {
        var id :| id in ids;
        ids := ids - {id};
        pendingAcks := pendingAcks[id := pendingAcks[id].(failed := true)];
      }
      ghost var failedAcks := pendingAcks;
      assert failedAcks == map id | id in acks :: acks[id].(failed := true);
      var keys := pendingCompletions.Keys;
      while keys != {}
        invariant session == None && pendingAcks == failedAcks && stale == old(stale)
        invariant keys <= pendingCompletions.Keys == completions.Keys
        invariant forall key :: key in completions ==>
          pendingCompletions[key] == if key in keys then completions[key] else completions[key].(failed := true)
        decreases keys
      {
        var key :| key in keys;
        keys := keys - {key};
        pendingCompletions := pendingCompletions[key := pendingCompletions[key].(failed := true)];
      }
      assert pendingCompletions == map key | key in completions :: completions[key].(failed := true);
      return true;
    }

    method BeginControl(id: string)
      modifies this`pendingAcks
      ensures Model() == TransportModel.BeginControl(old(Model()), id)
    {
      pendingAcks := pendingAcks[id := PendingAck(None, false)];
    }

    method ReceiveAck(id: string, accepted: bool) returns (matched: bool)
      modifies this
      ensures (Model(), matched) == TransportModel.ReceiveAck(old(Model()), id, accepted)
    {
      if id !in pendingAcks {
        stale := stale + 1;
        return false;
      }
      pendingAcks := pendingAcks[id := pendingAcks[id].(response := Some(accepted))];
      return true;
    }

    /** What the call does when its wait ends. */
    method ControlOutcome(id: string, timedOut: bool) returns (result: CallResult)
      requires id in pendingAcks
      ensures result == TransportModel.ControlOutcome(Model(), id, timedOut)
    {
      var pending := pendingAcks[id];
      if timedOut || pending.failed || pending.response.None? || !pending.response.value {
        return Raised;
      }
      return Returned;
    }

    method EndControl(id: string)
      modifies this`pendingAcks
      ensures Model() == TransportModel.EndControl(old(Model()), id)
    {
      pendingAcks := pendingAcks - {id};
    }

    method BeginPlayback(key: PlaybackKey) returns (result: CallResult)
      modifies this`pendingCompletions
      ensures (Model(), result) == TransportModel.BeginPlayback(old(Model()), key)
    {
      if key in pendingCompletions {
        return Raised;
      }
      pendingCompletions := pendingCompletions[key := PendingCompletion(None, false)];
      return Returned;
    }

    method ReceiveCompletion(key: PlaybackKey, c: Completion) returns (matched: bool)
      modifies this
      ensures (Model(), matched) == TransportModel.ReceiveCompletion(old(Model()), key, c)
    {
      if key !in pendingCompletions {
        stale := stale + 1;
        return false;
      }
      pendingCompletions := pendingCompletions[key := pendingCompletions[key].(response := Some(c))];
      return true;
    }

    /** What the playback does when its wait ends; `cancelled` is whether it then sees a cancel. */
    method PlaybackOutcome(key: PlaybackKey, cancelled: bool) returns (result: CallResult)
      requires key in pendingCompletions
      ensures result == TransportModel.PlaybackOutcome(Model(), key, cancelled)
    {
      var pending := pendingCompletions[key];
      if pending.response.None? && !pending.failed {
        return if cancelled then Returned else Raised;
      }
      if pending.failed || pending.response.None? {
        return Raised;
      }
      match pending.response.value
      case SpeechFailed => return Raised;
      case SpeechCancelled => return if cancelled then Returned else Raised;
      case SpeechCompleted => return Returned;
    }

    method EndPlayback(key: PlaybackKey)
      modifies this`pendingCompletions
      ensures Model() == TransportModel.EndPlayback(old(Model()), key)
    {
      pendingCompletions := pendingCompletions - {key};
    }
  }
}
