/**
 The resident pose stream: calibrated idle, finite clips, locomotion, and on-demand generation, under
 prompt revisions. Each transition is one section under the session's condition lock. Generation runs
 unlocked, so a finished chunk may arrive for any earlier request.
 */
module SessionModel {
  import opened Contracts
  import opened PoseModel

  datatype Prompt = CalibratedIdle | Preset(key: string) | Text(text: string)

  datatype Behavior = Clip(frames: seq<Frame>) | Walk(velocity: Velocity) | GeneratedMotion

  /** `blend` is how the output mixes two looks; nothing below depends on which function it is. */
  datatype Assets = Assets(idle: Frame, behaviors: map<string, Behavior>, returnFrames: nat, blend: Blender)

  datatype Request = Request(revision: nat, prompt: Prompt)

  datatype Buffered = Buffered(frame: Frame, request: Request)

  datatype Session = Session(
    assets: Assets,
    started: bool,
    stopped: bool,
    nextRevision: nat,
    requested: Option<Request>,
    buffer: seq<Buffered>,
    producerError: bool,
    lastSent: Frame,
    lastRequest: Option<Request>,
    playingRevision: nat,
    completedRevision: nat,
    selection: Selection)

  /** Progress within the selected request: its clip, its entry blend, its return to idle. */
  datatype Selection = Selection(
    revision: nat,
    presetIndex: nat,
    returnSource: Option<Frame>,
    returnIndex: nat,
    entry: Option<Transition>,
    entryIndex: nat,
    needsEntry: bool)

  /** What loading the assets checks: a neutral base pose, and clips that are not empty and stay in place. */
  ghost predicate ValidAssets(a: Assets) {
    && a.idle.movement == STILL
    && a.returnFrames >= 1
    && forall key :: key in a.behaviors && a.behaviors[key].Clip? ==> ValidClip(a.behaviors[key].frames)
  }

  ghost predicate ValidClip(frames: seq<Frame>) {
    |frames| > 0 && forall f :: f in frames ==> f.movement == STILL
  }

  function New(assets: Assets): Session {
    Session(assets, false, false, 0, None, [], false, assets.idle, None, 0, 0, Selection(0, 0, None, 0, None, 0, false))
  }

  /** Only a known preset that is played back (not generated) may be requested by name. */
  predicate Playable(a: Assets, p: Prompt) {
    match p
    case CalibratedIdle => true
    case Preset(key) => key in a.behaviors && !a.behaviors[key].GeneratedMotion?
    case Text(text) => text != ""
  }

  /** A new revision invalidates queued and in-flight generation alike. */
  function SetPrompt(s: Session, p: Prompt): (Session, Option<nat>) {
    if !Playable(s.assets, p) || !s.started then (s, None)
    else
      var revision := s.nextRevision + 1;
      (s.(nextRevision := revision, requested := Some(Request(revision, p)), buffer := [], producerError := false),
       Some(revision))
  }

  /** Stopping is final: the stop flag is never cleared again. */
  function Stop(s: Session): Session {
    s.(started := false, stopped := true)
  }

  function Begin(s: Session, p: Prompt): (Session, Option<nat>) {
    if s.started then (s, None) else SetPrompt(s.(started := true), p)
  }

  /** The mapper's movement and face are discarded: generated frames never steer the avatar. */
  function Grounded(s: Session, f: Frame): Frame {
    f.(movement := STILL, face := s.assets.idle.face)
  }

  function Produce(s: Session, request: Request, frames: seq<Frame>): Session {
    if s.requested != Some(request) then s
    else s.(buffer := s.buffer +
           seq(|frames|, i requires 0 <= i < |frames| => Buffered(Grounded(s, frames[i]), request)))
  }

  function ProducerFails(s: Session, request: Request): Session {
    if s.requested != Some(request) then s else s.(producerError := true)
  }

  // ---- Selecting the next frame ----

  /** A frame to send, the request it counts for, and whether it is playback of that request. */
  datatype Choice = Choice(selection: Selection, frame: Frame, observed: Option<Request>, accepted: bool)

  /** What the selection works from: the last frame and request sent. */
  datatype Last = Last(frame: Frame, request: Option<Request>)

  function Refresh(sel: Selection, revision: nat): Selection {
    if sel.revision == revision then sel else Selection(revision, 0, None, 0, None, 0, true)
  }

  /** Blend from what was last sent into the first frame of a new request; not yet playback of that request. */
  function Enter(a: Assets, sel: Selection, last: Last, frame: Frame, request: Request): Choice
    requires sel.needsEntry ==> sel.entryIndex < a.returnFrames
  {
    var source := Still(last.frame);
    if !sel.needsEntry then Choice(sel, frame, Some(request), true)
    else if sel.entry.None? && source == frame then Choice(sel.(needsEntry := false), frame, Some(request), true)
    else
      var t := if sel.entry.None? then Transition(source, frame) else sel.entry.value;
      var index := sel.entryIndex + 1;
      var entering := sel.(entry := Some(t), entryIndex := index);
      if index >= a.returnFrames then Choice(entering.(needsEntry := false), frame, Some(request), true)
      else Choice(entering, At(a.blend, t, Progress(index, a.returnFrames)), last.request, false)
  }

  function Return(a: Assets, sel: Selection, last: Last, request: Request): Choice
    requires 0 < a.returnFrames
  {
    var source := if sel.returnSource.Some? then sel.returnSource.value else Still(last.frame);
    var index := if sel.returnIndex + 1 < a.returnFrames then sel.returnIndex + 1 else a.returnFrames;
    Choice(
      sel.(returnSource := Some(source), returnIndex := index),
      At(a.blend, Transition(source, a.idle), Progress(index, a.returnFrames)),
      if index == a.returnFrames then Some(request) else last.request,
      false)
  }

  /** Keep tracking alive during generation latency; this is not playback of anything. */
  function Hold(sel: Selection, last: Last, idle: Frame): Choice {
    Choice(sel, last.frame.(face := idle.face, movement := STILL), last.request, false)
  }

  function Clamped(index: nat, n: nat): nat
    requires 0 < n
  {
    if index < n then index else n - 1
  }

  ghost predicate Selectable(a: Assets, sel: Selection, prompt: Prompt) {
    ValidAssets(a) && Playable(a, prompt) && (sel.needsEntry ==> sel.entryIndex < a.returnFrames)
  }

  function SelectPreset(a: Assets, sel: Selection, last: Last, key: string, request: Request): Choice
    requires Selectable(a, sel, Preset(key))
  {
    match a.behaviors[key]
    case Clip(frames) => Enter(a, sel, last, frames[Clamped(sel.presetIndex, |frames|)], request)
    case Walk(velocity) =>
      var c := Enter(a, sel, last, a.idle, request);
      c.(frame := c.frame.(movement := if c.accepted then velocity else STILL))
  }

  function Select(a: Assets, sel: Selection, last: Last, buffer: seq<Buffered>, request: Request): Choice
    requires Selectable(a, sel, request.prompt)
  {
    match request.prompt
    case CalibratedIdle => Return(a, sel, last, request)
    case Preset(key) => SelectPreset(a, sel, last, key, request)
    case Text(_) =>
      if buffer == [] then Hold(sel, last, a.idle)
      else Enter(a, sel, last, buffer[0].frame, buffer[0].request)
  }

  // ---- Sending it ----

  datatype SendResult = NotRunning | SendFailed | Sent(frame: Frame, began: Option<nat>)

  ghost predicate CanSend(s: Session) {
    && ValidAssets(s.assets) && (s.selection.needsEntry ==> s.selection.entryIndex < s.assets.returnFrames)
    && (s.requested.Some? ==> Playable(s.assets, s.requested.value.prompt))
  }

  /** A failed selection or a failed write is raised to the playback loop, which then stops the session. */
  function SendNext(s: Session, sinkOk: bool): (Session, SendResult)
    requires CanSend(s)
  {
    if !s.started || s.stopped then (s, NotRunning)
    else if s.requested.None? then (s, SendFailed)
    else
      var request := s.requested.value;
      var selection := Refresh(s.selection, request.revision);
      if s.producerError then (s.(selection := selection), SendFailed)
      else
        var c := Select(s.assets, selection, Last(s.lastSent, s.lastRequest), s.buffer, request);
        var popped := s.(
          selection := c.selection,
          buffer := if request.prompt.Text? && s.buffer != [] && c.accepted then s.buffer[1..] else s.buffer);
        if !sinkOk then (popped, SendFailed) else Commit(popped, c, request)
  }

  /** The clip played by a prompt, empty when it plays none. */
  function ClipOf(a: Assets, prompt: Prompt): seq<Frame> {
    if prompt.Preset? && prompt.key in a.behaviors && a.behaviors[prompt.key].Clip?
    then a.behaviors[prompt.key].frames else []
  }

  function Commit(s: Session, c: Choice, request: Request): (Session, SendResult) {
    var played := s.(
      lastSent := c.frame,
      lastRequest := if c.observed.Some? then c.observed else s.lastRequest,
      playingRevision := if c.observed.Some? then c.observed.value.revision else s.playingRevision);
    var began := if c.observed.Some? && s.playingRevision != c.observed.value.revision
                 then Some(c.observed.value.revision) else None;
    var length := |ClipOf(s.assets, request.prompt)|;
    var index := c.selection.presetIndex;
    if c.accepted && index < length then
      (played.(selection := c.selection.(presetIndex := index + 1),
               completedRevision := if index + 1 == length then request.revision else s.completedRevision),
       Sent(c.frame, began))
    else (played, Sent(c.frame, began))
  }
}
