/** Playback of one unreplaced request: return to idle, and exactly-once clips. */
module SessionPlayback {
  import opened Contracts
  import opened PoseModel
  import opened SessionModel
  import opened SessionRuns

  /**
   The request stays the newest one and the output keeps accepting frames. Generation may deliver chunks for any
   request and fail for any other one, and prompts may arrive that are refused.
   */
  predicate Undisturbed(e: Event, a: Assets, request: Request) {
    match e
    case BeginEvent(_) => true
    case PromptEvent(p) => !Playable(a, p)
    case ProduceEvent(_, _) => true
    case ProducerFailsEvent(failed) => failed != request
    case SendEvent(sinkOk) => sinkOk
    case StopEvent => false
  }

  /** Nothing in a run replaces, fails or stops this request. */
  ghost predicate Kept(es: seq<Event>, a: Assets, request: Request) {
    forall e :: e in es ==> Undisturbed(e, a, request)
  }

  ghost predicate Playing(s: Session) {
    s.started && !s.stopped && s.requested.Some? && !s.producerError
  }

  /** What is not a send leaves everything but the buffer as it is. */
  lemma OnlySendsPlay(s: Session, e: Event)
    requires Sound(s) && Playing(s) && Undisturbed(e, s.assets, s.requested.value) && !e.SendEvent?
    ensures Step(s, e) == s.(buffer := Step(s, e).buffer)
  {
  }

  function Smaller(a: nat, b: nat): nat {
    if a < b then a else b
  }

  /** The `i`-th frame sent comes from one particular send, reached after `i` earlier frames. */
  lemma {:induction false} OutputOrigin(s: Session, es: seq<Event>, i: nat) returns (m: nat)
    requires Sound(s) && i < |Outputs(s, es)|
    ensures m < |es| && es[m].SendEvent?
    ensures |Outputs(s, es[..m])| == i
    ensures Outputs(s, es)[i] == SendNext(Run(s, es[..m]), es[m].sinkOk).1
    decreases |es|
  {
    var head, next := Output(s, es[0]), Step(s, es[0]);
    if i < |head| {
      m := 0;
    } else {
      var rest := OutputOrigin(next, es[1..], i - |head|);
      m := rest + 1;
      assert es[..m][1..] == es[1..][..rest];
    }
  }

  // ---- Return to idle ----

  /** The frame of the `k`-th send of a return to idle, counting from 0. */
  function ReturnFrame(a: Assets, source: Frame, k: nat): Frame
    requires 0 < a.returnFrames
  {
    At(a.blend, Transition(source, a.idle), Progress(Smaller(k + 1, a.returnFrames), a.returnFrames))
  }

  /** `k` frames of the return have been sent; the blend started at `source`. */
  ghost predicate Returning(s: Session, source: Frame, k: nat) {
    && Sound(s) && Playing(s) && s.requested.value.prompt == CalibratedIdle
    && (if s.selection.revision != s.requested.value.revision then k == 0 && source == Still(s.lastSent)
        else
          && s.selection.returnIndex == Smaller(k, s.assets.returnFrames)
          && 0 < k && s.selection.returnSource == Some(source))
    && (s.playingRevision == s.requested.value.revision <==> s.assets.returnFrames <= k)
  }

  lemma ReturnStep(s: Session, source: Frame, k: nat)
    requires Returning(s, source, k)
    ensures
      var (next, sent) := SendNext(s, true);
      && Returning(next, source, k + 1)
      && next.assets == s.assets && next.requested == s.requested
      && sent == Sent(
           ReturnFrame(s.assets, source, k),
           if k + 1 == s.assets.returnFrames then Some(s.requested.value.revision) else None)
  {
    SendKeepsSound(s, true);
    var request := s.requested.value;
    var selection := Refresh(s.selection, request.revision);
    assert Smaller(k, s.assets.returnFrames) == selection.returnIndex;
  }

  lemma UndisturbedKeepsReturning(s: Session, source: Frame, k: nat, e: Event)
    requires Returning(s, source, k) && Undisturbed(e, s.assets, s.requested.value)
    ensures Returning(Step(s, e), source, k + |Output(s, e)|)
    ensures Step(s, e).assets == s.assets && Step(s, e).requested == s.requested
  {
    if e.SendEvent? {
      ReturnStep(s, source, k);
    } else {
      OnlySendsPlay(s, e);
    }
  }

  lemma {:induction false} ReturnRun(s: Session, source: Frame, k: nat, es: seq<Event>)
    requires Returning(s, source, k) && Kept(es, s.assets, s.requested.value)
    ensures Returning(Run(s, es), source, k + |Outputs(s, es)|)
    ensures Run(s, es).assets == s.assets && Run(s, es).requested == s.requested
    decreases |es|
  {
    if es != [] {
      assert es[0] in es;
      UndisturbedKeepsReturning(s, source, k, es[0]);
      ReturnRun(Step(s, es[0]), source, k + |Output(s, es[0])|, es[1..]);
    }
  }

  lemma AskForIdle(s: Session)
    requires Sound(s) && s.started && !s.stopped
    ensures var asked := SetPrompt(s, CalibratedIdle).0;
      && Returning(asked, Still(s.lastSent), 0)
      && asked.assets == s.assets && asked.requested == Some(Request(s.nextRevision + 1, CalibratedIdle))
  {
  }

  lemma ReturnOutput(asked: Session, source: Frame, es: seq<Event>, i: nat)
    requires Returning(asked, source, 0) && Kept(es, asked.assets, asked.requested.value)
    requires i < |Outputs(asked, es)|
    ensures Outputs(asked, es)[i] == Sent(
              ReturnFrame(asked.assets, source, i),
              if i + 1 == asked.assets.returnFrames then Some(asked.requested.value.revision) else None)
  {
    var m := OutputOrigin(asked, es, i);
    ReturnRun(asked, source, 0, es[..m]);
    assert es[m] in es;
    ReturnStep(Run(asked, es[..m]), source, i);
  }

  /**
   From any reachable stream, the sends after an idle request blend from the last frame sent (standing
   still) to idle: send `i` carries progress min(i+1, n)/n, so the n-th is exactly the idle frame and every
   later one holds it; the idle revision is reported on the n-th send and on no other.
   */
  lemma ReturnToIdleTakesExactlyN(s: Session, es: seq<Event>, i: nat)
    requires Sound(s) && s.started && !s.stopped
    requires Kept(es, s.assets, Request(s.nextRevision + 1, CalibratedIdle))
    requires i < |Outputs(SetPrompt(s, CalibratedIdle).0, es)|
    ensures
      var n := s.assets.returnFrames;
      var out := Outputs(SetPrompt(s, CalibratedIdle).0, es)[i];
      && out.frame == At(s.assets.blend, Transition(Still(s.lastSent), s.assets.idle), Progress(Smaller(i + 1, n), n))
      && (n <= i + 1 ==> out.frame == s.assets.idle)
      && out.began == (if i + 1 == n then Some(s.nextRevision + 1) else None)
  {
    AskForIdle(s);
    ReturnOutput(SetPrompt(s, CalibratedIdle).0, Still(s.lastSent), es, i);
  }

  /** The blend weights of a return rise strictly, in (0, 1], until idle is reached. */
  lemma ReturnWeightsRise(n: nat, j: nat, k: nat)
    requires j < k < n
    ensures 0.0 < Weight(Progress(j + 1, n)) < Weight(Progress(k + 1, n)) <= 1.0
  {
    ProgressRises(0, j + 1, n);
    ProgressRises(j + 1, k + 1, n);
    WeightRises(0.0, Progress(j + 1, n));
    WeightRises(Progress(j + 1, n), Progress(k + 1, n));
  }

  // ---- Finite clips ----

  /** No entry blend when the stream already shows the first frame; otherwise all but the last of `n`. */
  function EntryLength(source: Frame, clip: seq<Frame>, n: nat): nat
    requires 0 < |clip| && 0 < n
  {
    if source == clip[0] then 0 else n - 1
  }

  /** The frame of the `k`-th send of a clip: entry blends, then every frame once, then the last one held. */
  function ClipFrame(a: Assets, source: Frame, clip: seq<Frame>, k: nat): Frame
    requires 0 < |clip| && 0 < a.returnFrames
  {
    var entry := EntryLength(source, clip, a.returnFrames);
    if k < entry then At(a.blend, Transition(source, clip[0]), Progress(k + 1, a.returnFrames))
    else clip[Clamped(k - entry, |clip|)]
  }

  /** `k` frames of the clip request have been sent. */
  ghost predicate InClip(s: Session, clip: seq<Frame>, source: Frame, k: nat) {
    && Sound(s) && Playing(s) && s.requested.value.prompt.Preset?
    && ClipOf(s.assets, s.requested.value.prompt) == clip && 0 < |clip|
    && ClipProgress(s.selection, s.requested.value.revision, Still(s.lastSent), clip, source, s.assets.returnFrames, k)
    && var entry := EntryLength(source, clip, s.assets.returnFrames);
       && (s.completedRevision == s.requested.value.revision <==> entry + |clip| <= k)
       && (s.playingRevision == s.requested.value.revision <==> entry < k)
  }

  ghost predicate ClipProgress(
      sel: Selection, revision: nat, shown: Frame, clip: seq<Frame>, source: Frame, n: nat, k: nat)
    requires 0 < |clip| && 0 < n
  {
    var entry := EntryLength(source, clip, n);
    if sel.revision != revision then k == 0 && source == shown
    else if sel.needsEntry then
      && 0 < k == sel.entryIndex && k <= entry && sel.presetIndex == 0
      && sel.entry == Some(Transition(source, clip[0]))
    else entry < k && sel.presetIndex == Smaller(k - entry, |clip|)
  }

  lemma ClipChoice(a: Assets, sel: Selection, last: Last, clip: seq<Frame>, source: Frame, k: nat, request: Request)
    requires 0 < |clip| && 0 < a.returnFrames && (sel.needsEntry ==> sel.entryIndex < a.returnFrames)
    requires ClipProgress(sel, request.revision, Still(last.frame), clip, source, a.returnFrames, k)
    ensures
      var selected := Refresh(sel, request.revision);
      var c := Enter(a, selected, last, clip[Clamped(selected.presetIndex, |clip|)], request);
      var entry := EntryLength(source, clip, a.returnFrames);
      && c.frame == ClipFrame(a, source, clip, k)
      && (c.accepted <==> entry <= k)
      && c.observed == (if entry <= k then Some(request) else last.request)
      && c.selection.revision == request.revision
      && c.selection.presetIndex == (if k <= entry then 0 else Smaller(k - entry, |clip|))
      && (k < entry ==> c.selection.needsEntry && c.selection.entryIndex == k + 1
                        && c.selection.entry == Some(Transition(source, clip[0])))
      && (entry <= k ==> !c.selection.needsEntry)
  {
  }

  lemma ClipStep(s: Session, clip: seq<Frame>, source: Frame, k: nat)
    requires InClip(s, clip, source, k)
    ensures
      var entry := EntryLength(source, clip, s.assets.returnFrames);
      var (next, sent) := SendNext(s, true);
      && InClip(next, clip, source, k + 1)
      && next.assets == s.assets && next.requested == s.requested
      && sent == Sent(
           ClipFrame(s.assets, source, clip, k),
           if k == entry then Some(s.requested.value.revision) else None)
  {
    SendKeepsSound(s, true);
    ClipChoice(s.assets, s.selection, Last(s.lastSent, s.lastRequest), clip, source, k, s.requested.value);
  }

  lemma UndisturbedKeepsClip(s: Session, clip: seq<Frame>, source: Frame, k: nat, e: Event)
    requires InClip(s, clip, source, k) && Undisturbed(e, s.assets, s.requested.value)
    ensures InClip(Step(s, e), clip, source, k + |Output(s, e)|)
    ensures Step(s, e).assets == s.assets && Step(s, e).requested == s.requested
  {
    if e.SendEvent? {
      ClipStep(s, clip, source, k);
    } else {
      OnlySendsPlay(s, e);
    }
  }

  lemma {:induction false} ClipRun(s: Session, clip: seq<Frame>, source: Frame, k: nat, es: seq<Event>)
    requires InClip(s, clip, source, k) && Kept(es, s.assets, s.requested.value)
    ensures InClip(Run(s, es), clip, source, k + |Outputs(s, es)|)
    ensures Run(s, es).assets == s.assets && Run(s, es).requested == s.requested
    decreases |es|
  {
    if es != [] {
      assert es[0] in es;
      UndisturbedKeepsClip(s, clip, source, k, es[0]);
      ClipRun(Step(s, es[0]), clip, source, k + |Output(s, es[0])|, es[1..]);
    }
  }

  lemma AskForClip(s: Session, key: string)
    requires Sound(s) && s.started && !s.stopped
    requires key in s.assets.behaviors && s.assets.behaviors[key].Clip?
    ensures InClip(SetPrompt(s, Preset(key)).0, s.assets.behaviors[key].frames, Still(s.lastSent), 0)
    ensures SetPrompt(s, Preset(key)).0.assets == s.assets
    ensures SetPrompt(s, Preset(key)).0.requested == Some(Request(s.nextRevision + 1, Preset(key)))
  {
  }

  lemma ClipOutput(asked: Session, clip: seq<Frame>, source: Frame, es: seq<Event>, i: nat)
    requires InClip(asked, clip, source, 0) && Kept(es, asked.assets, asked.requested.value)
    requires i < |Outputs(asked, es)|
    ensures Outputs(asked, es)[i] == Sent(
              ClipFrame(asked.assets, source, clip, i),
              if i == EntryLength(source, clip, asked.assets.returnFrames)
              then Some(asked.requested.value.revision) else None)
  {
    var m := OutputOrigin(asked, es, i);
    ClipRun(asked, clip, source, 0, es[..m]);
    assert es[m] in es;
    ClipStep(Run(asked, es[..m]), clip, source, i);
  }

  /**
   A finite clip that is not replaced is played exactly once: either no entry blend or exactly n-1 of
   them, then every clip frame in order, then the last frame held. Playback of its revision is reported with
   the first clip frame and with no other.
   */
  lemma ClipPlaysExactlyOnce(s: Session, key: string, es: seq<Event>, i: nat)
    requires Sound(s) && s.started && !s.stopped
    requires Kept(es, s.assets, Request(s.nextRevision + 1, Preset(key)))
    requires key in s.assets.behaviors && s.assets.behaviors[key].Clip?
    requires i < |Outputs(SetPrompt(s, Preset(key)).0, es)|
    ensures
      var clip := s.assets.behaviors[key].frames;
      var entry := EntryLength(Still(s.lastSent), clip, s.assets.returnFrames);
      var out := Outputs(SetPrompt(s, Preset(key)).0, es)[i];
      && (entry == 0 || entry == s.assets.returnFrames - 1)
      && (i < entry ==>
            out.frame == At(s.assets.blend,
                            Transition(Still(s.lastSent), clip[0]), Progress(i + 1, s.assets.returnFrames)))
      && (entry <= i < entry + |clip| ==> out.frame == clip[i - entry])
      && (entry + |clip| <= i ==> out.frame == clip[|clip| - 1])
      && out.began == (if i == entry then Some(s.nextRevision + 1) else None)
  {
    AskForClip(s, key);
    ClipOutput(SetPrompt(s, Preset(key)).0, s.assets.behaviors[key].frames, Still(s.lastSent), es, i);
  }

  /** The revision counts as completed exactly from the send of the final clip frame on. */
  lemma ClipCompletesOnItsLastFrame(s: Session, key: string, es: seq<Event>)
    requires Sound(s) && s.started && !s.stopped
    requires Kept(es, s.assets, Request(s.nextRevision + 1, Preset(key)))
    requires key in s.assets.behaviors && s.assets.behaviors[key].Clip?
    ensures
      var clip := s.assets.behaviors[key].frames;
      var asked := SetPrompt(s, Preset(key)).0;
      Run(asked, es).completedRevision == s.nextRevision + 1 <==>
        EntryLength(Still(s.lastSent), clip, s.assets.returnFrames) + |clip| <= |Outputs(asked, es)|
  {
    AskForClip(s, key);
    ClipRun(SetPrompt(s, Preset(key)).0, s.assets.behaviors[key].frames, Still(s.lastSent), 0, es);
  }
}
