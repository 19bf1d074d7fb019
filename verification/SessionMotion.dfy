/** Playback of one unreplaced request that is generated on demand, or that walks. */
module SessionMotion {
  import opened Contracts
  import opened PoseModel
  import opened SessionModel
  import opened SessionRuns
  import opened SessionPlayback

  // ---- Generated motion ----

  /** A frame as it is held, and as generated frames are shown: the idle face, and no movement through the world. */
  function Held(a: Assets, f: Frame): Frame {
    f.(face := a.idle.face, movement := STILL)
  }

  function AllHeld(a: Assets, frames: seq<Frame>): seq<Frame> {
    seq(|frames|, i requires 0 <= i < |frames| => Held(a, frames[i]))
  }

  /**
   What a viewer of a generated request has to be shown: the frame the output stood at, everything generated for the
   request so far, and how many sends have found something to show.
   */
  datatype Reel = Reel(source: Frame, generated: seq<Frame>, shown: nat)

  /** Entry blends into the first generated frame come first. */
  function Length(a: Assets, r: Reel): nat
    requires 0 < a.returnFrames
  {
    if r.generated == [] then 0 else EntryLength(r.source, r.generated, a.returnFrames) + |r.generated|
  }

  function Wind(a: Assets, request: Request, r: Reel, e: Event): Reel
    requires 0 < a.returnFrames
  {
    match e
    case ProduceEvent(origin, frames) =>
      if origin == request then r.(generated := r.generated + AllHeld(a, frames)) else r
    case SendEvent(_) =>
      if r.generated == [] then r.(source := Held(a, r.source))
      else r.(shown := if r.shown < Length(a, r) then r.shown + 1 else r.shown)
    case _ => r
  }

  function Wound(a: Assets, request: Request, r: Reel, es: seq<Event>): Reel
    requires 0 < a.returnFrames
    decreases |es|
  {
    if es == [] then r else Wound(a, request, Wind(a, request, r, es[0]), es[1..])
  }

  /** The last frame is held until something is generated; then blends, each generated frame once, the last one held. */
  function ReelFrame(a: Assets, r: Reel): Frame
    requires 0 < a.returnFrames
  {
    if r.generated == [] then Held(a, r.source) else ClipFrame(a, r.source, r.generated, r.shown)
  }

  /** How many generated frames have been shown. */
  function Popped(a: Assets, r: Reel): nat
    requires 0 < a.returnFrames
  {
    if r.generated == [] || r.shown <= EntryLength(r.source, r.generated, a.returnFrames) then 0
    else r.shown - EntryLength(r.source, r.generated, a.returnFrames)
  }

  function Queue(frames: seq<Frame>, request: Request): seq<Buffered> {
    seq(|frames|, i requires 0 <= i < |frames| => Buffered(frames[i], request))
  }

  ghost predicate InText(s: Session, r: Reel) {
    && Sound(s) && Playing(s) && s.requested.value.prompt.Text?
    && (forall f :: f in r.generated ==> f == Held(s.assets, f))
    && r.shown <= Length(s.assets, r)
    && s.buffer == Queue(r.generated[Popped(s.assets, r)..], s.requested.value)
    && EntryAgrees(s.selection, s.requested.value.revision, s.lastSent, s.assets, r)
    && (s.playingRevision == s.requested.value.revision <==> 0 < Popped(s.assets, r))
  }

  ghost predicate EntryAgrees(sel: Selection, revision: nat, lastSent: Frame, a: Assets, r: Reel)
    requires 0 < a.returnFrames && r.shown <= Length(a, r)
  {
    if r.shown == 0 then
      && r.source == Still(lastSent)
      && (sel.revision == revision ==> sel.needsEntry && sel.entry.None? && sel.entryIndex == 0)
    else
      var popped := Popped(a, r);
      && sel.revision == revision
      && (if popped == 0 then sel.needsEntry && sel.entryIndex == r.shown
                              && sel.entry == Some(Transition(r.source, r.generated[0]))
          else !sel.needsEntry && lastSent == r.generated[popped - 1])
  }

  lemma HeldFramesStay(a: Assets, frames: seq<Frame>)
    ensures forall f :: f in AllHeld(a, frames) ==> f == Held(a, f)
  {
  }

  lemma GeneratingKeepsText(s: Session, r: Reel, frames: seq<Frame>)
    requires InText(s, r)
    ensures InText(Produce(s, s.requested.value, frames), r.(generated := r.generated + AllHeld(s.assets, frames)))
  {
    var n := r.(generated := r.generated + AllHeld(s.assets, frames));
    var next := Produce(s, s.requested.value, frames);
    HeldFramesStay(s.assets, frames);
    assert Popped(s.assets, n) == Popped(s.assets, r);
    assert n.generated[Popped(s.assets, n)..] == r.generated[Popped(s.assets, r)..] + AllHeld(s.assets, frames);
    assert next.buffer == Queue(n.generated[Popped(s.assets, n)..], s.requested.value);
  }

  /** Nothing is buffered: the last frame is held. */
  lemma HoldStep(s: Session, r: Reel)
    requires InText(s, r) && s.buffer == []
    ensures
      var (next, sent) := SendNext(s, true);
      && InText(next, Wind(s.assets, s.requested.value, r, SendEvent(true)))
      && next.assets == s.assets && next.requested == s.requested
      && sent == Sent(ReelFrame(s.assets, r), None)
  {
    SendKeepsSound(s, true);
    assert r.generated[Popped(s.assets, r)..] == [];
    if r.generated != [] {
      assert r.generated[Popped(s.assets, r) - 1] in r.generated;
    }
  }

  lemma TextChoice(a: Assets, sel: Selection, last: Last, r: Reel, request: Request)
    requires ValidAssets(a) && r.generated != [] && r.shown < Length(a, r)
    requires EntryAgrees(sel, request.revision, last.frame, a, r)
    ensures
      var selected := Refresh(sel, request.revision);
      var c := Enter(a, selected, last, r.generated[Popped(a, r)], request);
      var entry := EntryLength(r.source, r.generated, a.returnFrames);
      && (selected.needsEntry ==> selected.entryIndex < a.returnFrames)
      && c.frame == ReelFrame(a, r) && (c.accepted <==> entry <= r.shown)
      && c.observed == (if entry <= r.shown then Some(request) else last.request)
      && EntryAgrees(c.selection, request.revision, c.frame, a, r.(shown := r.shown + 1))
  {
  }

  /** Showing takes the first buffered frame out exactly when it is accepted. */
  lemma ShowTakesOne(s: Session, r: Reel)
    requires InText(s, r) && s.buffer != []
    ensures
      var n := r.(shown := r.shown + 1);
      && n.shown <= Length(s.assets, n)
      && (if EntryLength(r.source, r.generated, s.assets.returnFrames) <= r.shown then s.buffer[1..] else s.buffer)
           == Queue(n.generated[Popped(s.assets, n)..], s.requested.value)
  {
    var n := r.(shown := r.shown + 1);
    OneLess(s.buffer, r.generated[Popped(s.assets, r)..], s.requested.value);
    if Popped(s.assets, n) > Popped(s.assets, r) {
      assert n.generated[Popped(s.assets, n)..] == r.generated[Popped(s.assets, r)..][1..];
    }
  }

  /** What a send does with a buffered frame. */
  lemma ShowSends(s: Session, r: Reel)
    requires InText(s, r) && s.buffer != []
    ensures
      var (next, sent) := SendNext(s, true);
      var revision, entry := s.requested.value.revision, EntryLength(r.source, r.generated, s.assets.returnFrames);
      var accepted := entry <= r.shown;
      && next == s.(selection := next.selection, lastSent := ReelFrame(s.assets, r), lastRequest := next.lastRequest,
                    buffer := if accepted then s.buffer[1..] else s.buffer,
                    playingRevision := if accepted then revision else s.playingRevision)
      && EntryAgrees(next.selection, revision, next.lastSent, s.assets, r.(shown := r.shown + 1))
      && sent == Sent(ReelFrame(s.assets, r), if r.shown == entry then Some(revision) else None)
  {
    assert s.buffer[0] == Buffered(r.generated[Popped(s.assets, r)], s.requested.value);
    TextChoice(s.assets, s.selection, Last(s.lastSent, s.lastRequest), r, s.requested.value);
  }

  /** Something is buffered: it is blended into, or shown and taken out. */
  lemma ShowStep(s: Session, r: Reel)
    requires InText(s, r) && s.buffer != []
    ensures
      var (next, sent) := SendNext(s, true);
      && InText(next, Wind(s.assets, s.requested.value, r, SendEvent(true)))
      && next.assets == s.assets && next.requested == s.requested
      && sent == Sent(
           ReelFrame(s.assets, r),
           if r.shown == EntryLength(r.source, r.generated, s.assets.returnFrames) then Some(s.requested.value.revision)
           else None)
  {
    SendKeepsSound(s, true);
    ShowSends(s, r);
    ShowTakesOne(s, r);
    assert r.generated[Popped(s.assets, r)..] != [];
  }

  lemma OneLess(buffer: seq<Buffered>, frames: seq<Frame>, request: Request)
    requires buffer == Queue(frames, request) && frames != []
    ensures buffer[1..] == Queue(frames[1..], request)
  {
  }

  /** The revision whose playback begins with the next frame of the reel. */
  function ReelBegins(a: Assets, r: Reel, revision: nat): Option<nat>
    requires 0 < a.returnFrames
  {
    if r.generated != [] && r.shown == EntryLength(r.source, r.generated, a.returnFrames) then Some(revision) else None
  }

  lemma TextStep(s: Session, r: Reel)
    requires InText(s, r)
    ensures
      var (next, sent) := SendNext(s, true);
      && InText(next, Wind(s.assets, s.requested.value, r, SendEvent(true)))
      && next.assets == s.assets && next.requested == s.requested
      && sent == Sent(ReelFrame(s.assets, r), ReelBegins(s.assets, r, s.requested.value.revision))
  {
    if s.buffer == [] {
      HoldStep(s, r);
      assert r.generated[Popped(s.assets, r)..] == [];
    } else {
      ShowStep(s, r);
    }
  }

  lemma UndisturbedKeepsText(s: Session, r: Reel, e: Event)
    requires InText(s, r) && Undisturbed(e, s.assets, s.requested.value)
    ensures InText(Step(s, e), Wind(s.assets, s.requested.value, r, e))
    ensures Step(s, e).assets == s.assets && Step(s, e).requested == s.requested
  {
    if e.SendEvent? {
      TextStep(s, r);
    } else if e.ProduceEvent? && e.request == s.requested.value {
      GeneratingKeepsText(s, r, e.frames);
    } else {
      assert Step(s, e) == s;
    }
  }

  lemma {:induction false} TextRun(s: Session, r: Reel, es: seq<Event>)
    requires InText(s, r) && Kept(es, s.assets, s.requested.value)
    ensures InText(Run(s, es), Wound(s.assets, s.requested.value, r, es))
    ensures Run(s, es).assets == s.assets && Run(s, es).requested == s.requested
    decreases |es|
  {
    if es != [] {
      assert es[0] in es;
      UndisturbedKeepsText(s, r, es[0]);
      TextRun(Step(s, es[0]), Wind(s.assets, s.requested.value, r, es[0]), es[1..]);
    }
  }

  function NewReel(s: Session): Reel {
    Reel(Still(s.lastSent), [], 0)
  }

  lemma AskForText(s: Session, text: string)
    requires Sound(s) && s.started && !s.stopped && text != ""
    ensures
      var asked := SetPrompt(s, Text(text)).0;
      && InText(asked, NewReel(s))
      && asked.assets == s.assets && asked.requested == Some(Request(s.nextRevision + 1, Text(text)))
  {
  }

  /**
   A generated request that is not replaced, whatever else is generated, fails or is refused meanwhile: each send
   holds the frame shown last while nothing new has been generated, except that the first frames blend into the first
   generated one; then every generated frame is shown once, in the order of its commit. Playback of its revision is
   reported with the first generated frame alone.
   */
  lemma TextPlaysInOrder(s: Session, text: string, es: seq<Event>)
    requires Sound(s) && s.started && !s.stopped && text != ""
    requires Kept(es, s.assets, Request(s.nextRevision + 1, Text(text)))
    ensures
      var request := Request(s.nextRevision + 1, Text(text));
      var reel := Wound(s.assets, request, NewReel(s), es);
      SendNext(Run(SetPrompt(s, Text(text)).0, es), true).1
        == Sent(ReelFrame(s.assets, reel), ReelBegins(s.assets, reel, request.revision))
  {
    AskForText(s, text);
    var asked := SetPrompt(s, Text(text)).0;
    TextRun(asked, NewReel(s), es);
    TextStep(Run(asked, es), Wound(s.assets, asked.requested.value, NewReel(s), es));
  }

  /** Everything committed for a request, as it is shown. */
  function Committed(a: Assets, request: Request, es: seq<Event>): seq<Frame>
    decreases |es|
  {
    if es == [] then []
    else (if es[0].ProduceEvent? && es[0].request == request then AllHeld(a, es[0].frames) else [])
         + Committed(a, request, es[1..])
  }

  lemma {:induction false} ReelGathers(a: Assets, request: Request, r: Reel, es: seq<Event>)
    requires 0 < a.returnFrames
    ensures Wound(a, request, r, es).generated == r.generated + Committed(a, request, es)
    decreases |es|
  {
    if es != [] { ReelGathers(a, request, Wind(a, request, r, es[0]), es[1..]); }
  }

  /**
   The generated frames already shown, followed by those still buffered, are exactly the frames committed for the
   request: none is lost, repeated or taken out of turn.
   */
  lemma GeneratedFramesAreConserved(s: Session, text: string, es: seq<Event>)
    requires Sound(s) && s.started && !s.stopped && text != ""
    requires Kept(es, s.assets, Request(s.nextRevision + 1, Text(text)))
    ensures
      var request := Request(s.nextRevision + 1, Text(text));
      var committed := Committed(s.assets, request, es);
      var shown := Popped(s.assets, Wound(s.assets, request, NewReel(s), es));
      shown <= |committed| && Run(SetPrompt(s, Text(text)).0, es).buffer == Queue(committed[shown..], request)
  {
    TextPlaysInOrder(s, text, es);
    AskForText(s, text);
    TextRun(SetPrompt(s, Text(text)).0, NewReel(s), es);
    ReelGathers(s.assets, Request(s.nextRevision + 1, Text(text)), NewReel(s), es);
  }

  // ---- Walking ----

  /** The frame of the `k`-th send of a walk: entry blends towards idle, then idle moving at the walk's velocity. */
  function WalkFrame(a: Assets, source: Frame, velocity: Velocity, k: nat): Frame
    requires 0 < a.returnFrames
  {
    if k < EntryLength(source, [a.idle], a.returnFrames)
    then Still(At(a.blend, Transition(source, a.idle), Progress(k + 1, a.returnFrames)))
    else a.idle.(movement := velocity)
  }

  ghost predicate InWalk(s: Session, velocity: Velocity, source: Frame, k: nat) {
    && Sound(s) && Playing(s) && s.requested.value.prompt.Preset?
    && s.assets.behaviors[s.requested.value.prompt.key] == Walk(velocity)
    && WalkProgress(s.selection, s.requested.value.revision, Still(s.lastSent), s.assets, source, k)
    && (s.playingRevision == s.requested.value.revision <==>
          EntryLength(source, [s.assets.idle], s.assets.returnFrames) < k)
  }

  ghost predicate WalkProgress(sel: Selection, revision: nat, shown: Frame, a: Assets, source: Frame, k: nat)
    requires 0 < a.returnFrames
  {
    if sel.revision != revision then k == 0 && source == shown
    else if sel.needsEntry then
      && 0 < k == sel.entryIndex && k <= EntryLength(source, [a.idle], a.returnFrames)
      && sel.entry == Some(Transition(source, a.idle))
    else EntryLength(source, [a.idle], a.returnFrames) < k
  }

  lemma WalkStep(s: Session, velocity: Velocity, source: Frame, k: nat)
    requires InWalk(s, velocity, source, k)
    ensures
      var (next, sent) := SendNext(s, true);
      && InWalk(next, velocity, source, k + 1)
      && next.assets == s.assets && next.requested == s.requested
      && sent == Sent(
           WalkFrame(s.assets, source, velocity, k),
           if k == EntryLength(source, [s.assets.idle], s.assets.returnFrames) then Some(s.requested.value.revision)
           else None)
  {
    SendKeepsSound(s, true);
  }

  lemma {:induction false} WalkRun(s: Session, velocity: Velocity, source: Frame, k: nat, es: seq<Event>)
    requires InWalk(s, velocity, source, k) && Kept(es, s.assets, s.requested.value)
    ensures InWalk(Run(s, es), velocity, source, k + |Outputs(s, es)|)
    ensures Run(s, es).assets == s.assets && Run(s, es).requested == s.requested
    decreases |es|
  {
    if es != [] {
      assert es[0] in es;
      if es[0].SendEvent? { WalkStep(s, velocity, source, k); } else { OnlySendsPlay(s, es[0]); }
      WalkRun(Step(s, es[0]), velocity, source, k + |Output(s, es[0])|, es[1..]);
    }
  }

  lemma AskForWalk(s: Session, key: string)
    requires Sound(s) && s.started && !s.stopped
    requires key in s.assets.behaviors && s.assets.behaviors[key].Walk?
    ensures
      var asked := SetPrompt(s, Preset(key)).0;
      && InWalk(asked, s.assets.behaviors[key].velocity, Still(s.lastSent), 0)
      && asked.assets == s.assets && asked.requested == Some(Request(s.nextRevision + 1, Preset(key)))
  {
  }

  /**
   A walk that is not replaced blends into idle without moving, and from then on shows idle moving at its own velocity;
   its playback is reported with the first moving frame alone.
   */
  lemma WalkShowsIdleMoving(s: Session, key: string, es: seq<Event>)
    requires Sound(s) && s.started && !s.stopped
    requires key in s.assets.behaviors && s.assets.behaviors[key].Walk?
    requires Kept(es, s.assets, Request(s.nextRevision + 1, Preset(key)))
    ensures
      var asked := SetPrompt(s, Preset(key)).0;
      var source, k := Still(s.lastSent), |Outputs(asked, es)|;
      SendNext(Run(asked, es), true).1 == Sent(
        WalkFrame(s.assets, source, s.assets.behaviors[key].velocity, k),
        if k == EntryLength(source, [s.assets.idle], s.assets.returnFrames) then Some(s.nextRevision + 1) else None)
  {
    AskForWalk(s, key);
    var asked := SetPrompt(s, Preset(key)).0;
    WalkRun(asked, s.assets.behaviors[key].velocity, Still(s.lastSent), 0, es);
    WalkStep(Run(asked, es), s.assets.behaviors[key].velocity, Still(s.lastSent), |Outputs(asked, es)|);
  }

  // ---- Ends ----

  /**
   A session takes no prompt before it begins. Begun on a prompt that is refused it has started nevertheless: it cannot
   begin again, sending fails until a prompt is accepted, and the next good prompt is served under the next revision.
   */
  lemma RefusedFirstPromptStarts(s: Session, refused: Prompt, good: Prompt, sinkOk: bool)
    requires Sound(s) && !s.started && !s.stopped && s.requested.None?
    requires !Playable(s.assets, refused) && Playable(s.assets, good)
    ensures SetPrompt(s, good) == (s, None) && SendNext(s, sinkOk) == (s, NotRunning)
    ensures
      var (begun, revision) := Begin(s, refused);
      && revision.None? && Begin(begun, good) == (begun, None)
      && SendNext(begun, sinkOk).1 == SendFailed && SetPrompt(begun, good).1 == Some(s.nextRevision + 1)
  {
  }

  lemma {:induction false} StoppedShowsNothing(s: Session, es: seq<Event>)
    requires Sound(s) && s.stopped
    ensures Outputs(s, es) == []
    decreases |es|
  {
    if es != [] { StoppedShowsNothing(Step(s, es[0]), es[1..]); }
  }

  /** A stop is final: nothing is shown any more, whatever is asked of the session. */
  lemma StopIsFinal(s: Session, es: seq<Event>)
    requires Sound(s)
    ensures Outputs(Step(s, StopEvent), es) == []
  {
    StoppedShowsNothing(Step(s, StopEvent), es);
  }

  /** The request stays the newest one. */
  predicate Unreplaced(e: Event, a: Assets) {
    match e
    case PromptEvent(p) => !Playable(a, p)
    case BeginEvent(_) => false
    case _ => true
  }

  /** When generating the newest request has failed, nothing is shown until another prompt is accepted. */
  lemma {:induction false} FailedGenerationShowsNothing(s: Session, es: seq<Event>)
    requires Sound(s) && s.requested.Some? && forall e :: e in es ==> Unreplaced(e, s.assets)
    ensures Outputs(Step(s, ProducerFailsEvent(s.requested.value)), es) == []
    decreases |es|
  {
    var failed := Step(s, ProducerFailsEvent(s.requested.value));
    if es != [] {
      assert es[0] in es;
      var n := Step(failed, es[0]);
      assert n.requested == s.requested && n.producerError && n.assets == s.assets;
      assert Step(n, ProducerFailsEvent(n.requested.value)) == n;
      FailedGenerationShowsNothing(n, es[1..]);
    }
  }

  // ---- What is remembered ----

  /** The prompt that a step makes the newest request. */
  function Accepts(s: Session, e: Event): Option<Prompt> {
    match e
    case BeginEvent(p) => if !s.started && Playable(s.assets, p) then Some(p) else None
    case PromptEvent(p) => if s.started && Playable(s.assets, p) then Some(p) else None
    case _ => None
  }

  ghost function Prompts(s: Session, es: seq<Event>): seq<Prompt>
    requires Sound(s)
    decreases |es|
  {
    if es == [] then []
    else (if Accepts(s, es[0]).Some? then [Accepts(s, es[0]).value] else []) + Prompts(Step(s, es[0]), es[1..])
  }

  /** The request after these prompts were accepted, the last one counting. */
  ghost function Newest(requested: Option<Request>, revision: nat, prompts: seq<Prompt>): Option<Request> {
    if prompts == [] then requested else Some(Request(revision + |prompts|, prompts[|prompts| - 1]))
  }

  lemma StepTakesThePrompt(s: Session, e: Event)
    requires Sound(s)
    ensures
      var n, accepted := Step(s, e), Accepts(s, e);
      && n.nextRevision == s.nextRevision + (if accepted.Some? then 1 else 0)
      && n.requested == (if accepted.Some? then Some(Request(n.nextRevision, accepted.value)) else s.requested)
  {
  }

  lemma NewestOfOneMore(requested: Option<Request>, revision: nat, p: Prompt, later: seq<Prompt>)
    ensures Newest(requested, revision, [p] + later) == Newest(Some(Request(revision + 1, p)), revision + 1, later)
  {
  }

  /** The newest request is the prompt accepted last, and revisions count the prompts accepted. */
  lemma {:induction false} RevisionsCountThePrompts(s: Session, es: seq<Event>)
    requires Sound(s)
    ensures Run(s, es).nextRevision == s.nextRevision + |Prompts(s, es)|
    ensures Run(s, es).requested == Newest(s.requested, s.nextRevision, Prompts(s, es))
    decreases |es|
  {
    if es != [] {
      var n := Step(s, es[0]);
      StepTakesThePrompt(s, es[0]);
      RevisionsCountThePrompts(n, es[1..]);
      var later := Prompts(n, es[1..]);
      if Accepts(s, es[0]).Some? {
        assert Prompts(s, es) == [Accepts(s, es[0]).value] + later;
        NewestOfOneMore(s.requested, s.nextRevision, Accepts(s, es[0]).value, later);
      } else {
        assert Prompts(s, es) == later;
      }
    }
  }

  lemma LastOfOneMore(head: seq<SendResult>, later: seq<SendResult>, last: Frame, revision: nat)
    requires forall o :: o in head + later ==> o.Sent?
    ensures LastFrame(head + later, last) == LastFrame(later, LastFrame(head, last))
    ensures LastBegun(head + later, revision) == LastBegun(later, LastBegun(head, revision))
    decreases |later|
  {
    if later == [] {
      assert head + later == head;
    } else {
      assert (head + later)[..|head + later| - 1] == head + later[..|later| - 1];
      LastOfOneMore(head, later[..|later| - 1], last, revision);
    }
  }

  ghost function LastFrame(outputs: seq<SendResult>, before: Frame): Frame
    requires forall o :: o in outputs ==> o.Sent?
  {
    if outputs == [] then before
    else
      assert outputs[|outputs| - 1] in outputs;
      outputs[|outputs| - 1].frame
  }

  ghost function LastBegun(outputs: seq<SendResult>, before: nat): nat
    requires forall o :: o in outputs ==> o.Sent?
    decreases |outputs|
  {
    if outputs == [] then before
    else
      assert outputs[|outputs| - 1] in outputs;
      if outputs[|outputs| - 1].began.Some? then outputs[|outputs| - 1].began.value
      else LastBegun(outputs[..|outputs| - 1], before)
  }

  lemma OneSendIsRemembered(s: Session, e: Event)
    requires Sound(s)
    ensures Step(s, e).lastSent == LastFrame(Output(s, e), s.lastSent)
    ensures Step(s, e).playingRevision == LastBegun(Output(s, e), s.playingRevision)
  {
    if e.SendEvent? && Output(s, e) != [] {
      assert Output(s, e)[..0] == [];
    }
  }

  /**
   The session remembers exactly what it showed: the frame of the last write that was taken, and the revision whose
   playback began last; a write that raises leaves both as they were.
   */
  lemma {:induction false} ShownIsRemembered(s: Session, es: seq<Event>)
    requires Sound(s)
    ensures Run(s, es).lastSent == LastFrame(Outputs(s, es), s.lastSent)
    ensures Run(s, es).playingRevision == LastBegun(Outputs(s, es), s.playingRevision)
    decreases |es|
  {
    if es != [] {
      OneSendIsRemembered(s, es[0]);
      ShownIsRemembered(Step(s, es[0]), es[1..]);
      LastOfOneMore(Output(s, es[0]), Outputs(Step(s, es[0]), es[1..]), s.lastSent, s.playingRevision);
    }
  }
}
