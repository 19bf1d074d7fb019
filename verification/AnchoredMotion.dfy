/** The session object: fields updated under its condition lock, proved against SessionModel. */
module AnchoredMotion {
  import opened Contracts
  import opened PoseModel
  import opened SessionModel

  class AnchoredMotionSession {
    const assets: Assets
    var started: bool
    var stopRequested: bool
    var nextRevision: nat
    var requested: Option<Request>
    var buffer: seq<Buffered>
    var producerError: bool
    var lastSent: Frame
    var lastRequest: Option<Request>
    var playingRevision: nat
    var completedRevision: nat
    var selectedRevision: nat
    var presetIndex: nat
    var returnSource: Option<Frame>
    var returnIndex: nat
    var entry: Option<Transition>
    var entryIndex: nat
    var needsEntry: bool

    ghost function Chosen(): Selection
      reads this
    {
      Selection(selectedRevision, presetIndex, returnSource, returnIndex, entry, entryIndex, needsEntry)
    }

    ghost function Model(): Session
      reads this
    {
      Session(assets, started, stopRequested, nextRevision, requested, buffer, producerError, lastSent, lastRequest,
              playingRevision, completedRevision, Chosen())
    }

    constructor (assets: Assets)
      ensures Model() == New(assets)
    {
      this.assets := assets;
      started, stopRequested, nextRevision, requested := false, false, 0, None;
      buffer, producerError, lastSent, lastRequest := [], false, assets.idle, None;
      playingRevision, completedRevision, selectedRevision := 0, 0, 0;
      presetIndex, returnSource, returnIndex := 0, None, 0;
      entry, entryIndex, needsEntry := None, 0, false;
    }

    method Start(prompt: Prompt) returns (revision: Option<nat>)
      modifies this
      ensures (Model(), revision) == Begin(old(Model()), prompt)
    {
      if started {
        return None;
      }
      started := true;
      revision := SetPrompt(prompt);
    }

    method SetPrompt(prompt: Prompt) returns (revision: Option<nat>)
      modifies this`nextRevision, this`requested, this`buffer, this`producerError
      ensures (Model(), revision) == SessionModel.SetPrompt(old(Model()), prompt)
    {
      if !Playable(assets, prompt) || !started {
        return None;
      }
      nextRevision := nextRevision + 1;
      requested := Some(Request(nextRevision, prompt));
      buffer, producerError := [], false;
      return Some(nextRevision);
    }

    /** The producer's commit of one generated chunk; the request it was generated for may be an old one. */
    method CommitChunk(request: Request, frames: seq<Frame>)
      modifies this`buffer
      ensures Model() == Produce(old(Model()), request, frames)
    {
      if requested != Some(request) {
        return;
      }
      var i := 0;
      ghost var grounded :=
        seq(|frames|, j requires 0 <= j < |frames| => Buffered(Grounded(old(Model()), frames[j]), request));
      while i < |frames|
        invariant i <= |frames|
        invariant buffer == old(buffer) + grounded[..i]
      {
        buffer := buffer + [Buffered(frames[i].(movement := STILL, face := assets.idle.face), request)];
        i := i + 1;
      }
      assert grounded[..|frames|] == grounded;
    }

    method FailGeneration(request: Request)
      modifies this`producerError
      ensures Model() == ProducerFails(old(Model()), request)
    {
      if requested == Some(request) {
        producerError := true;
      }
    }

    /** A blend step towards `frame`, or `frame` itself once the entry is over. */
    method EnterLocked(frame: Frame, request: Request) returns (sent: Frame, observed: Option<Request>, accepted: bool)
      requires needsEntry ==> entryIndex < assets.returnFrames
      modifies this`entry, this`entryIndex, this`needsEntry
      ensures Choice(Chosen(), sent, observed, accepted)
           == Enter(assets, old(Chosen()), Last(lastSent, lastRequest), frame, request)
    {
      if !needsEntry {
        return frame, Some(request), true;
      }
      if entry.None? {
        var source := lastSent.(movement := STILL);
        if source == frame {
          needsEntry := false;
          return frame, Some(request), true;
        }
        entry := Some(Transition(source, frame));
      }
      entryIndex := entryIndex + 1;
      if entryIndex >= assets.returnFrames {
        needsEntry := false;
        return frame, Some(request), true;
      }
      return At(assets.blend, entry.value, Progress(entryIndex, assets.returnFrames)), lastRequest, false;
    }

    method ReturnLocked(request: Request) returns (sent: Frame, observed: Option<Request>)
      requires 0 < assets.returnFrames
      modifies this`returnSource, this`returnIndex
      ensures Choice(Chosen(), sent, observed, false)
           == Return(assets, old(Chosen()), Last(lastSent, lastRequest), request)
    {
      if returnSource.None? {
        returnSource := Some(lastSent.(movement := STILL));
      }
      returnIndex := if returnIndex + 1 < assets.returnFrames then returnIndex + 1 else assets.returnFrames;
      sent := At(assets.blend, Transition(returnSource.value, assets.idle), Progress(returnIndex, assets.returnFrames));
      observed := if returnIndex == assets.returnFrames then Some(request) else lastRequest;
    }

    /** The next frame of the selected request; `advance` says whether it is a frame of an unfinished clip. */
    method SelectLocked(request: Request)
        returns (sent: Frame, observed: Option<Request>, advance: bool, ghost c: Choice)
      requires Selectable(assets, Chosen(), request.prompt)
      modifies this`returnSource, this`returnIndex, this`entry, this`entryIndex, this`needsEntry, this`buffer
      ensures c == Select(assets, old(Chosen()), Last(lastSent, lastRequest), old(buffer), request)
      ensures Chosen() == c.selection && sent == c.frame && observed == c.observed
      ensures advance <==> c.accepted && presetIndex < |ClipOf(assets, request.prompt)|
      ensures buffer ==
        if request.prompt.Text? && old(buffer) != [] && c.accepted then old(buffer)[1..] else old(buffer)
    {
      c := Select(assets, Chosen(), Last(lastSent, lastRequest), buffer, request);
      match request.prompt {
        case CalibratedIdle =>
          sent, observed := ReturnLocked(request);
          advance := false;
        case Preset(key) =>
          var accepted: bool;
          match assets.behaviors[key] {
            case Clip(frames) =>
              sent, observed, accepted := EnterLocked(frames[Clamped(presetIndex, |frames|)], request);
              advance := accepted && presetIndex < |frames|;
            case Walk(velocity) =>
              sent, observed, accepted := EnterLocked(assets.idle, request);
              sent := sent.(movement := if accepted then velocity else STILL);
              advance := false;
          }
        case Text(_) =>
          advance := false;
          if buffer == [] {
            sent, observed := lastSent.(face := assets.idle.face, movement := STILL), lastRequest;
          } else {
            var accepted: bool;
            sent, observed, accepted := EnterLocked(buffer[0].frame, buffer[0].request);
            if accepted {
              buffer := buffer[1..];
            }
          }
      }
    }

    method RefreshLocked(revision: nat)
      modifies this`selectedRevision, this`presetIndex, this`returnSource, this`returnIndex,
        this`entry, this`entryIndex, this`needsEntry
      ensures Chosen() == Refresh(old(Chosen()), revision)
    {
      if selectedRevision != revision {
        selectedRevision, presetIndex, returnIndex := revision, 0, 0;
        returnSource, entry, entryIndex, needsEntry := None, None, 0, true;
      }
    }

    /** The frame has reached the output: account for the playback it belongs to. */
    method CommitLocked(request: Request, sent: Frame, observed: Option<Request>, advance: bool, ghost c: Choice)
        returns (result: SendResult)
      requires Chosen() == c.selection && sent == c.frame && observed == c.observed
      requires advance <==> c.accepted && presetIndex < |ClipOf(assets, request.prompt)|
      modifies this`lastSent, this`lastRequest, this`playingRevision, this`presetIndex, this`completedRevision
      ensures (Model(), result) == Commit(old(Model()), c, request)
    {
      lastSent := sent;
      var began := None;
      if observed.Some? {
        lastRequest := observed;
        if playingRevision != observed.value.revision {
          began := Some(observed.value.revision);
        }
        playingRevision := observed.value.revision;
      }
      if advance {
        presetIndex := presetIndex + 1;
        if presetIndex == |ClipOf(assets, request.prompt)| {
          completedRevision := request.revision;
        }
      }
      return Sent(sent, began);
    }

    /** One authoritative output step. `sinkOk` is whether the sink accepted the frame. */
    method SendNext(sinkOk: bool) returns (result: SendResult)
      requires CanSend(Model())
      modifies this
      ensures (Model(), result) == SessionModel.SendNext(old(Model()), sinkOk)
    {
      if !started || stopRequested {
        return NotRunning;
      }
      if requested.None? {
        return SendFailed;
      }
      var request := requested.value;
      RefreshLocked(request.revision);
      if producerError {
        return SendFailed;
      }
      var sent, observed, advance, c := SelectLocked(request);
      if !sinkOk {
        return SendFailed;
      }
      result := CommitLocked(request, sent, observed, advance, c);
    }

    method StopSession()
      modifies this`started, this`stopRequested
      ensures Model() == Stop(old(Model()))
    {
      started, stopRequested := false, true;
    }
  }
}
