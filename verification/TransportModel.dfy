/**
 The Mac-side output transport: one session at a time, control messages that wait for their own
 acknowledgement, and speech playbacks that wait for their own completion. Blocking waits are split
 into three sections: `Begin`, the `Outcome` read when the wait ends, and `End`, which clears the table
 entry later. Whether the wait timed out, or saw a cancel, is an input.
 */
module TransportModel {
  import opened Contracts

  datatype PendingAck = PendingAck(response: Option<bool>, failed: bool)

  datatype Completion = SpeechCompleted | SpeechCancelled | SpeechFailed

  /** A speech playback is identified by its session and its lease. */
  datatype PlaybackKey = PlaybackKey(sessionId: string, actionId: string, resource: Resource, token: int)

  datatype PendingCompletion = PendingCompletion(response: Option<Completion>, failed: bool)

  datatype Transport = Transport(
    session: Option<string>,
    acks: map<string, PendingAck>,
    completions: map<PlaybackKey, PendingCompletion>,
    stale: nat)

  const DISCONNECTED := Transport(None, map[], map[], 0)

  datatype CallResult = Returned | Raised

  function OpenSession(t: Transport, sessionId: string): (Transport, CallResult) {
    if sessionId == "" || t.session.Some? then (t, Raised) else (t.(session := Some(sessionId)), Returned)
  }

  /** Losing the session fails every wait at once. */
  function CloseSession(t: Transport, sessionId: string): (Transport, bool) {
    if t.session != Some(sessionId) then (t, false)
    else
      (t.(session := None,
          acks := map id | id in t.acks :: t.acks[id].(failed := true),
          completions := map key | key in t.completions :: t.completions[key].(failed := true)), true)
  }

  function BeginControl(t: Transport, id: string): Transport {
    t.(acks := t.acks[id := PendingAck(None, false)])
  }

  function ReceiveAck(t: Transport, id: string, accepted: bool): (Transport, bool) {
    if id !in t.acks then (t.(stale := t.stale + 1), false)
    else (t.(acks := t.acks[id := t.acks[id].(response := Some(accepted))]), true)
  }

  /** The call returns only when its own accepting acknowledgement arrived in time on a live session. */
  function ControlOutcome(t: Transport, id: string, timedOut: bool): CallResult
    requires id in t.acks
  {
    var pending := t.acks[id];
    if !timedOut && !pending.failed && pending.response == Some(true) then Returned else Raised
  }

  function EndControl(t: Transport, id: string): Transport {
    t.(acks := t.acks - {id})
  }

  function BeginPlayback(t: Transport, key: PlaybackKey): (Transport, CallResult) {
    if key in t.completions then (t, Raised)
    else (t.(completions := t.completions[key := PendingCompletion(None, false)]), Returned)
  }

  function ReceiveCompletion(t: Transport, key: PlaybackKey, c: Completion): (Transport, bool) {
    if key !in t.completions then (t.(stale := t.stale + 1), false)
    else (t.(completions := t.completions[key := t.completions[key].(response := Some(c))]), true)
  }

  /** A wait that ends without an answer either saw a cancel or timed out; what arrives afterwards is too late. */
  function PlaybackOutcome(t: Transport, key: PlaybackKey, cancelled: bool): CallResult
    requires key in t.completions
  {
    var pending := t.completions[key];
    if pending.response.None? && !pending.failed then (if cancelled then Returned else Raised)
    else if pending.failed || pending.response.None? || pending.response == Some(SpeechFailed) then Raised
    else if pending.response == Some(SpeechCancelled) && !cancelled then Raised
    else Returned
  }

  function EndPlayback(t: Transport, key: PlaybackKey): Transport {
    t.(completions := t.completions - {key})
  }

  // ---- Waits over any traffic ----

  datatype Event =
    | OpenEvent(sessionId: string)
    | CloseEvent(sessionId: string)
    | BeginControlEvent(id: string)
    | AckEvent(id: string, accepted: bool)
    | EndControlEvent(id: string)
    | BeginPlaybackEvent(key: PlaybackKey)
    | CompletionEvent(key: PlaybackKey, completion: Completion)
    | EndPlaybackEvent(key: PlaybackKey)

  function Step(t: Transport, e: Event): Transport {
    match e
    case OpenEvent(sid) => OpenSession(t, sid).0
    case CloseEvent(sid) => CloseSession(t, sid).0
    case BeginControlEvent(id) => BeginControl(t, id)
    case AckEvent(id, accepted) => ReceiveAck(t, id, accepted).0
    case EndControlEvent(id) => EndControl(t, id)
    case BeginPlaybackEvent(key) => BeginPlayback(t, key).0
    case CompletionEvent(key, c) => ReceiveCompletion(t, key, c).0
    case EndPlaybackEvent(key) => EndPlayback(t, key)
  }

  function Run(t: Transport, es: seq<Event>): Transport
    decreases |es|
  {
    if es == [] then t else Run(Step(t, es[0]), es[1..])
  }

  lemma {:induction false} ResponseWasReceived(t: Transport, id: string, es: seq<Event>)
    requires id in Run(t, es).acks && Run(t, es).acks[id].response == Some(true)
    ensures (id in t.acks && t.acks[id].response == Some(true)) || AckEvent(id, true) in es
    decreases |es|
  {
    if es != [] {
      ResponseWasReceived(Step(t, es[0]), id, es[1..]);
    }
  }

  /** A control call that returns was acknowledged, by an ack for this very message, while it was waiting. */
  lemma ReturnedMeansAcknowledged(t: Transport, id: string, es: seq<Event>, timedOut: bool)
    requires id in Run(BeginControl(t, id), es).acks
    requires ControlOutcome(Run(BeginControl(t, id), es), id, timedOut) == Returned
    ensures AckEvent(id, true) in es && !timedOut
  {
    ResponseWasReceived(BeginControl(t, id), id, es);
  }

  lemma {:induction false} CompletionWasReceived(t: Transport, key: PlaybackKey, c: Completion, es: seq<Event>)
    requires key in Run(t, es).completions && Run(t, es).completions[key].response == Some(c)
    ensures (key in t.completions && t.completions[key].response == Some(c)) || CompletionEvent(key, c) in es
    decreases |es|
  {
    if es != [] {
      CompletionWasReceived(Step(t, es[0]), key, c, es[1..]);
    }
  }

  /** Speech that was not cancelled ends normally only on the completion of its own session and lease. */
  lemma SpeechEndsOnItsOwnCompletion(t: Transport, key: PlaybackKey, es: seq<Event>)
    requires key !in t.completions
    requires key in Run(BeginPlayback(t, key).0, es).completions
    requires PlaybackOutcome(Run(BeginPlayback(t, key).0, es), key, false) == Returned
    ensures CompletionEvent(key, SpeechCompleted) in es
  {
    match Run(BeginPlayback(t, key).0, es).completions[key].response.value
    case SpeechCompleted => CompletionWasReceived(BeginPlayback(t, key).0, key, SpeechCompleted, es);
    case SpeechCancelled =>
    case SpeechFailed =>
  }
}
