/** What the pose stream guarantees over every run. */
module SessionRuns {
  import opened Contracts
  import opened PoseModel
  import opened SessionModel

  datatype Event =
    | BeginEvent(prompt: Prompt)
    | PromptEvent(prompt: Prompt)
    | ProduceEvent(request: Request, frames: seq<Frame>)
    | ProducerFailsEvent(request: Request)
    | SendEvent(sinkOk: bool)
    | StopEvent

  // ---- The invariant ----

  /** Every buffered frame was generated for the newest request, whatever was in flight. */
  ghost predicate BufferIsNewest(s: Session) {
    forall b :: b in s.buffer ==> Some(b.request) == s.requested && b.frame.movement == STILL
  }

  ghost predicate RevisionsAgree(s: Session) {
    && (s.requested.Some? ==>
          1 <= s.requested.value.revision == s.nextRevision && Playable(s.assets, s.requested.value.prompt))
    && s.playingRevision <= s.nextRevision && s.completedRevision <= s.nextRevision
    && s.selection.revision <= s.nextRevision
    && s.playingRevision == (if s.lastRequest.Some? then s.lastRequest.value.revision else 0)
    && (s.lastRequest.Some? ==> 1 <= s.lastRequest.value.revision)
  }

  /** Blends start and end without world movement. */
  ghost predicate BlendsAreStill(sel: Selection, n: nat) {
    && (sel.needsEntry ==> sel.entryIndex < n)
    && (sel.entry.Some? ==> sel.entry.value.source.movement == STILL && sel.entry.value.target.movement == STILL)
    && (sel.returnSource.Some? ==> sel.returnSource.value.movement == STILL)
  }

  ghost predicate Sound(s: Session) {
    ValidAssets(s.assets) && BufferIsNewest(s) && RevisionsAgree(s)
    && BlendsAreStill(s.selection, s.assets.returnFrames)
  }

  lemma NewIsSound(assets: Assets)
    requires ValidAssets(assets)
    ensures Sound(New(assets))
  {
  }

  lemma EnterIsStill(a: Assets, sel: Selection, last: Last, frame: Frame, request: Request)
    requires BlendsAreStill(sel, a.returnFrames) && frame.movement == STILL
    ensures var c := Enter(a, sel, last, frame, request);
      && BlendsAreStill(c.selection, a.returnFrames) && c.selection.revision == sel.revision
      && c.frame.movement == STILL
      && (c.accepted <==> !c.selection.needsEntry)
      && (c.observed == Some(request) || c.observed == last.request)
  {
    var t := if sel.entry.None? then Transition(Still(last.frame), frame) else sel.entry.value;
    if sel.needsEntry && sel.entryIndex + 1 < a.returnFrames {
      BlendOfStillIsStill(a.blend, t, Progress(sel.entryIndex + 1, a.returnFrames));
    }
  }

  lemma ReturnIsStill(a: Assets, sel: Selection, last: Last, request: Request)
    requires BlendsAreStill(sel, a.returnFrames) && a.idle.movement == STILL && 0 < a.returnFrames
    ensures var c := Return(a, sel, last, request);
      && BlendsAreStill(c.selection, a.returnFrames) && c.selection.revision == sel.revision
      && c.frame.movement == STILL
      && (c.observed == Some(request) || c.observed == last.request)
  {
    var source := if sel.returnSource.Some? then sel.returnSource.value else Still(last.frame);
    var index := if sel.returnIndex + 1 < a.returnFrames then sel.returnIndex + 1 else a.returnFrames;
    BlendOfStillIsStill(a.blend, Transition(source, a.idle), Progress(index, a.returnFrames));
  }

  /** The world movement a request may cause: only a walk, and only once its entry is over. */
  ghost function Movement(a: Assets, sel: Selection, prompt: Prompt): Velocity {
    if prompt.Preset? && prompt.key in a.behaviors && a.behaviors[prompt.key].Walk? && !sel.needsEntry
    then a.behaviors[prompt.key].velocity
    else STILL
  }

  lemma SelectIsStill(a: Assets, sel: Selection, last: Last, buffer: seq<Buffered>, request: Request)
    requires Selectable(a, sel, request.prompt) && BlendsAreStill(sel, a.returnFrames)
    requires forall b :: b in buffer ==> b.request == request && b.frame.movement == STILL
    ensures var c := Select(a, sel, last, buffer, request);
      && BlendsAreStill(c.selection, a.returnFrames) && c.selection.revision == sel.revision
      && (c.observed == Some(request) || c.observed == last.request)
      && c.frame.movement == Movement(a, c.selection, request.prompt)
  {
    match request.prompt
    case CalibratedIdle => ReturnIsStill(a, sel, last, request);
    case Preset(key) =>
      var b := a.behaviors[key];
      var frame := if b.Clip? then b.frames[Clamped(sel.presetIndex, |b.frames|)] else a.idle;
      EnterIsStill(a, sel, last, frame, request);
    case Text(_) =>
      if buffer != [] {
        assert buffer[0] in buffer;
        EnterIsStill(a, sel, last, buffer[0].frame, request);
      }
  }

  /** The frame chosen next, once the selection has caught up with the newest request. */
  ghost function Chosen(s: Session): Choice
    requires CanSend(s) && s.requested.Some?
  {
    var request := s.requested.value;
    Select(s.assets, Refresh(s.selection, request.revision), Last(s.lastSent, s.lastRequest), s.buffer, request)
  }

  lemma ChosenIsStill(s: Session)
    requires Sound(s) && s.requested.Some?
    ensures CanSend(s)
    ensures var c := Chosen(s);
      && BlendsAreStill(c.selection, s.assets.returnFrames) && c.selection.revision == s.requested.value.revision
      && (c.observed == s.requested || c.observed == s.lastRequest)
      && c.frame.movement == Movement(s.assets, c.selection, s.requested.value.prompt)
  {
    var request := s.requested.value;
    SelectIsStill(s.assets, Refresh(s.selection, request.revision), Last(s.lastSent, s.lastRequest), s.buffer, request);
  }

  lemma SendKeepsBuffer(s: Session, sinkOk: bool)
    requires Sound(s)
    ensures BufferIsNewest(SendNext(s, sinkOk).0)
  {
  }

  lemma SendKeepsRevisions(s: Session, sinkOk: bool)
    requires Sound(s)
    ensures RevisionsAgree(SendNext(s, sinkOk).0)
  {
    if s.requested.Some? { ChosenIsStill(s); }
  }

  lemma SendKeepsBlends(s: Session, sinkOk: bool)
    requires Sound(s)
    ensures BlendsAreStill(SendNext(s, sinkOk).0.selection, s.assets.returnFrames)
  {
    if s.requested.Some? { ChosenIsStill(s); }
  }

  lemma SendMoves(s: Session, sinkOk: bool)
    requires Sound(s)
    ensures SendNext(s, sinkOk).1.Sent? ==>
      && s.requested.Some?
      && SendNext(s, sinkOk).1.frame.movement ==
           Movement(s.assets, SendNext(s, sinkOk).0.selection, s.requested.value.prompt)
  {
    if s.requested.Some? { ChosenIsStill(s); }
  }

  lemma SendKeepsSound(s: Session, sinkOk: bool)
    requires Sound(s)
    ensures CanSend(s) && Sound(SendNext(s, sinkOk).0)
  {
    SendKeepsBuffer(s, sinkOk);
    SendKeepsRevisions(s, sinkOk);
    SendKeepsBlends(s, sinkOk);
    assert SendNext(s, sinkOk).0.assets == s.assets;
  }

  ghost function Step(s: Session, e: Event): (n: Session)
    requires Sound(s)
    ensures Sound(n)
  {
    match e
    case BeginEvent(p) => Begin(s, p).0
    case PromptEvent(p) => SetPrompt(s, p).0
    case ProduceEvent(request, frames) => Produce(s, request, frames)
    case ProducerFailsEvent(request) => ProducerFails(s, request)
    case SendEvent(sinkOk) => SendKeepsSound(s, sinkOk); SendNext(s, sinkOk).0
    case StopEvent => Stop(s)
  }

  ghost function Run(s: Session, es: seq<Event>): (n: Session)
    requires Sound(s)
    ensures Sound(n)
    decreases |es|
  {
    if es == [] then s else Run(Step(s, es[0]), es[1..])
  }

  /** The frames one step writes to the output, with the revision whose playback they begin. */
  ghost function Output(s: Session, e: Event): seq<SendResult>
    requires Sound(s)
  {
    if e.SendEvent? && SendNext(s, e.sinkOk).1.Sent? then [SendNext(s, e.sinkOk).1] else []
  }

  ghost function Outputs(s: Session, es: seq<Event>): seq<SendResult>
    requires Sound(s)
    ensures forall o :: o in Outputs(s, es) ==> o.Sent?
    decreases |es|
  {
    if es == [] then [] else Output(s, es[0]) + Outputs(Step(s, es[0]), es[1..])
  }

  // ---- Movement ----

  /** Every frame sent stands still in the world, except a walk past its entry, which moves at its own velocity. */
  lemma OnlyWalksMove(assets: Assets, es: seq<Event>, sinkOk: bool)
    requires ValidAssets(assets)
    requires SendNext(Run(New(assets), es), sinkOk).1.Sent?
    ensures
      var s := Run(New(assets), es);
      var (next, sent) := SendNext(s, sinkOk);
      && s.requested.Some?
      && sent.frame.movement == Movement(s.assets, next.selection, s.requested.value.prompt)
  {
    SendMoves(Run(New(assets), es), sinkOk);
  }

  // ---- Revisions ----

  lemma BeganIsNew(s: Session, e: Event)
    requires Sound(s)
    ensures s.playingRevision <= Step(s, e).playingRevision
    ensures forall o :: o in Output(s, e) && o.began.Some? ==>
              s.playingRevision < o.began.value == Step(s, e).playingRevision
  {
    if e.SendEvent? && s.requested.Some? {
      ChosenIsStill(s);
    }
  }

  /** The revisions whose playback begins, in order. */
  ghost function Began(outputs: seq<SendResult>): seq<nat>
    requires forall o :: o in outputs ==> o.Sent?
    decreases |outputs|
  {
    if outputs == [] then []
    else
      assert outputs[0] in outputs;
      (if outputs[0].began.Some? then [outputs[0].began.value] else []) + Began(outputs[1..])
  }

  ghost predicate Rising(revisions: seq<nat>, above: nat)
    decreases |revisions|
  {
    revisions == [] || (above < revisions[0] && Rising(revisions[1..], revisions[0]))
  }

  lemma RisingFromLower(revisions: seq<nat>, above: nat, lower: nat)
    requires Rising(revisions, above) && lower <= above
    ensures Rising(revisions, lower)
  {
  }

  lemma BeganOfOneMore(o: SendResult, outputs: seq<SendResult>)
    requires o.Sent? && forall x :: x in outputs ==> x.Sent?
    ensures Began([o] + outputs) == (if o.began.Some? then [o.began.value] else []) + Began(outputs)
  {
    assert ([o] + outputs)[1..] == outputs;
  }

  lemma {:induction false} BeganIsRising(s: Session, es: seq<Event>)
    requires Sound(s)
    ensures Rising(Began(Outputs(s, es)), s.playingRevision)
    decreases |es|
  {
    if es != [] {
      var next, head := Step(s, es[0]), Output(s, es[0]);
      var later := Outputs(next, es[1..]);
      BeganIsNew(s, es[0]);
      BeganIsRising(next, es[1..]);
      RisingFromLower(Began(later), next.playingRevision, s.playingRevision);
      if head == [] {
        assert head + later == later;
      } else {
        assert head[0] in head;
        BeganOfOneMore(head[0], later);
        if head[0].began.Some? {
          assert ([head[0].began.value] + Began(later))[1..] == Began(later);
        } else {
          assert [] + Began(later) == Began(later);
        }
      }
    }
  }

  lemma {:induction false} RisingPair(revisions: seq<nat>, above: nat, i: nat, j: nat)
    requires Rising(revisions, above) && i < |revisions|
    ensures above < revisions[i] && (i < j < |revisions| ==> revisions[i] < revisions[j])
    decreases |revisions|
  {
    if i > 0 {
      RisingPair(revisions[1..], revisions[0], i - 1, if j > 0 then j - 1 else 0);
    } else if 0 < j < |revisions| {
      RisingPair(revisions[1..], revisions[0], j - 1, 0);
    }
  }

  /** The revisions whose playback begins strictly increase over the whole run. */
  lemma BeganRevisionsIncrease(assets: Assets, es: seq<Event>, i: nat, j: nat)
    requires ValidAssets(assets)
    requires i < j < |Began(Outputs(New(assets), es))|
    ensures Began(Outputs(New(assets), es))[i] < Began(Outputs(New(assets), es))[j]
  {
    BeganIsRising(New(assets), es);
    RisingPair(Began(Outputs(New(assets), es)), 0, i, j);
  }

  /** A generated frame leaves the buffer only for the newest request, however late its chunk arrived. */
  lemma PoppedFrameIsNewest(assets: Assets, es: seq<Event>, sinkOk: bool)
    requires ValidAssets(assets)
    requires var s := Run(New(assets), es); |SendNext(s, sinkOk).0.buffer| < |s.buffer|
    ensures
      var s := Run(New(assets), es);
      && s.buffer[0].request == s.requested.value
      && s.requested.value.revision == s.nextRevision
      && SendNext(s, sinkOk).0.buffer == s.buffer[1..]
  {
    var s := Run(New(assets), es);
    assert s.buffer[0] in s.buffer;
  }
}
