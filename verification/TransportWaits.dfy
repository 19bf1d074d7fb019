/** Exactly when a blocking output call returns, over every run of traffic while it waits. */
module TransportWaits {
  import opened Contracts
  import opened TransportModel

  /** The session is lost while this runs. */
  predicate Loses(t: Transport, es: seq<Event>)
    decreases |es|
  {
    es != [] && ((es[0].CloseEvent? && t.session == Some(es[0].sessionId)) || Loses(Step(t, es[0]), es[1..]))
  }

  // ---- Control calls ----

  /** Message ids are fresh, so nobody else begins or ends this wait. */
  predicate OthersOnly(es: seq<Event>, id: string) {
    forall e :: e in es ==> !(e.BeginControlEvent? && e.id == id) && !(e.EndControlEvent? && e.id == id)
  }

  /** The answer that arrived last. */
  function LastAnswer(es: seq<Event>, id: string, before: Option<bool>): Option<bool>
    decreases |es|
  {
    if es == [] then before
    else LastAnswer(es[1..], id, if es[0].AckEvent? && es[0].id == id then Some(es[0].accepted) else before)
  }

  lemma {:induction false} WaitRemembers(t: Transport, id: string, es: seq<Event>)
    requires id in t.acks && OthersOnly(es, id)
    ensures id in Run(t, es).acks
    ensures Run(t, es).acks[id] == PendingAck(
              LastAnswer(es, id, t.acks[id].response), t.acks[id].failed || Loses(t, es))
    decreases |es|
  {
    if es != [] {
      assert es[0] in es;
      WaitRemembers(Step(t, es[0]), id, es[1..]);
    }
  }

  /**
   A control call returns exactly when its wait did not time out, the session was not lost while it waited, and the
   answer received last for this very message was an accepting one; otherwise it raises.
   */
  lemma CallReturnsIff(t: Transport, id: string, es: seq<Event>, timedOut: bool)
    requires OthersOnly(es, id)
    ensures id in Run(BeginControl(t, id), es).acks
    ensures ControlOutcome(Run(BeginControl(t, id), es), id, timedOut) == Returned <==>
              !timedOut && !Loses(BeginControl(t, id), es) && LastAnswer(es, id, None) == Some(true)
  {
    WaitRemembers(BeginControl(t, id), id, es);
  }

  // ---- Speech ----

  predicate OtherSpeech(es: seq<Event>, key: PlaybackKey) {
    forall e :: e in es ==> !(e.BeginPlaybackEvent? && e.key == key) && !(e.EndPlaybackEvent? && e.key == key)
  }

  function LastCompletion(es: seq<Event>, key: PlaybackKey, before: Option<Completion>): Option<Completion>
    decreases |es|
  {
    if es == [] then before
    else
      var own := es[0].CompletionEvent? && es[0].key == key;
      LastCompletion(es[1..], key, if own then Some(es[0].completion) else before)
  }

  lemma {:induction false} PlaybackRemembers(t: Transport, key: PlaybackKey, es: seq<Event>)
    requires key in t.completions && OtherSpeech(es, key)
    ensures key in Run(t, es).completions
    ensures Run(t, es).completions[key] == PendingCompletion(
              LastCompletion(es, key, t.completions[key].response), t.completions[key].failed || Loses(t, es))
    decreases |es|
  {
    if es != [] {
      assert es[0] in es;
      PlaybackRemembers(Step(t, es[0]), key, es[1..]);
    }
  }

  /**
   Speech ends without raising exactly when the session was not lost and either its own completion says so, or it was
   cancelled and nothing but a cancellation came back.
   */
  lemma SpeechReturnsIff(t: Transport, key: PlaybackKey, es: seq<Event>, cancelled: bool)
    requires key !in t.completions && OtherSpeech(es, key)
    ensures BeginPlayback(t, key).1 == Returned && key in Run(BeginPlayback(t, key).0, es).completions
    ensures PlaybackOutcome(Run(BeginPlayback(t, key).0, es), key, cancelled) == Returned <==>
              && !Loses(BeginPlayback(t, key).0, es)
              && match LastCompletion(es, key, None)
                 case Some(SpeechCompleted) => true
                 case Some(SpeechFailed) => false
                 case _ => cancelled
  {
    PlaybackRemembers(BeginPlayback(t, key).0, key, es);
  }

  /** A second playback of the same session and lease is refused while the first one waits, and changes nothing. */
  lemma SecondPlaybackIsRefused(t: Transport, key: PlaybackKey, es: seq<Event>)
    requires key in t.completions && OtherSpeech(es, key)
    ensures BeginPlayback(Run(t, es), key) == (Run(t, es), Raised)
  {
    PlaybackRemembers(t, key, es);
  }

  // ---- Sessions and late answers ----

  /** One session at a time: opening succeeds exactly when none is open, and closing only touches the open one. */
  function SessionAfter(session: Option<string>, es: seq<Event>): Option<string>
    decreases |es|
  {
    if es == [] then session
    else
      SessionAfter(
        match es[0]
        case OpenEvent(sid) => if session.None? && sid != "" then Some(sid) else session
        case CloseEvent(sid) => if session == Some(sid) then None else session
        case _ => session,
        es[1..])
  }

  lemma {:induction false} SessionIsTheOpenOne(t: Transport, es: seq<Event>)
    ensures Run(t, es).session == SessionAfter(t.session, es)
    decreases |es|
  {
    if es != [] { SessionIsTheOpenOne(Step(t, es[0]), es[1..]); }
  }

  /** What arrives after its wait has ended is counted as stale and changes nothing else. */
  lemma LateAnswersAreStale(t: Transport, id: string, accepted: bool, key: PlaybackKey, c: Completion)
    ensures ReceiveAck(EndControl(t, id), id, accepted) == (EndControl(t, id).(stale := t.stale + 1), false)
    ensures ReceiveCompletion(EndPlayback(t, key), key, c) == (EndPlayback(t, key).(stale := t.stale + 1), false)
  {
  }
}
