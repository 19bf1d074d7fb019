/**
 The segmenter object: frame buffers and millisecond counters changed per push. It keeps no positions; the
 ghost model does, and every buffer and counter is proved to be what the model says of the stream.
 */
module EnergyVad {
  import opened Contracts
  import opened VadModel
  import opened VadRuns

  predicate Within(positions: seq<nat>, n: nat) {
    forall i :: 0 <= i < |positions| ==> positions[i] < n
  }

  /** The frames at some positions of the stream. */
  function Frames(stream: seq<Pcm>, positions: seq<nat>): seq<Pcm>
    requires Within(positions, |stream|)
  {
    seq(|positions|, i requires 0 <= i < |positions| => stream[positions[i]])
  }

  /** The frames of an utterance, in the order they are joined. */
  function Audio(stream: seq<Pcm>, u: Utterance): seq<Pcm>
    requires Within(u.pre, |stream|) && u.start <= u.end <= |stream|
  {
    Frames(stream, u.pre) + stream[u.start..u.end]
  }

  /** The audio of an utterance, if one was emitted; utterances of a sound segmenter are always within the stream. */
  function AudioOf(stream: seq<Pcm>, u: Option<Utterance>): Option<seq<Pcm>> {
    if u.Some? && Within(u.value.pre, |stream|) && u.value.start <= u.value.end <= |stream|
    then Some(Audio(stream, u.value))
    else None
  }

  lemma FramesOfGrownStream(stream: seq<Pcm>, f: Pcm, positions: seq<nat>)
    requires Within(positions, |stream|)
    ensures Frames(stream + [f], positions) == Frames(stream, positions)
  {
  }

  lemma NewestFrames(stream: seq<Pcm>, positions: seq<nat>, n: nat)
    requires Within(positions, |stream|)
    ensures Within(Newest(positions, n), |stream|)
    ensures Frames(stream, Newest(positions, n)) == Newest(Frames(stream, positions), n)
  {
  }

  lemma FramesOfRange(stream: seq<Pcm>, pre: seq<nat>, start: nat)
    requires Within(pre, |stream|) && start <= |stream|
    ensures Within(pre + Range(start, |stream|), |stream|)
    ensures Frames(stream, pre + Range(start, |stream|)) == Frames(stream, pre) + stream[start..]
  {
  }

  /** What the pre-roll of the next utterance starts from. */
  lemma TailFrames(c: Config, stream: seq<Pcm>, a: Active, keepTail: bool)
    requires Within(a.pre, |stream|) && a.start <= |stream|
    ensures stream[a.start..|stream|] == stream[a.start..]
    ensures
      var tail := if keepTail then Newest(a.pre + Range(a.start, |stream|), PreRollFrames(c)) else [];
      && Within(tail, |stream|)
      && Frames(stream, tail) ==
           if keepTail && PreRollFrames(c) > 0 then Newest(Frames(stream, a.pre) + stream[a.start..], PreRollFrames(c))
           else []
  {
    FramesOfRange(stream, a.pre, a.start);
    NewestFrames(stream, a.pre + Range(a.start, |stream|), PreRollFrames(c));
  }

  lemma {:induction false} EveryFrameCounts(c: Config, fs: seq<Pcm>)
    requires AllVoiced(c, fs)
    ensures CountVoiced(c, fs) == |fs|
    decreases |fs|
  {
    if fs != [] {
      EveryFrameCounts(c, fs[..|fs| - 1]);
    }
  }

  lemma OneMoreFrame(c: Config, fs: seq<Pcm>, f: Pcm)
    ensures CountVoiced(c, fs + [f]) == CountVoiced(c, fs) + if Voiced(c, f) then 1 else 0
    ensures TrailingSilence(c, fs + [f]) == if Voiced(c, f) then 0 else 1 + TrailingSilence(c, fs)
  {
    assert (fs + [f])[..|fs + [f]| - 1] == fs;
  }

  lemma SilenceFrames(c: Config, s: Vad, f: Pcm)
    requires ValidConfig(c) && Sound(c, s) && s.active.None? && !Voiced(c, f)
    ensures
      var n := Absorb(c, s, f);
      && Sound(c, n) && n.active.None? && n.stream[n.candidateStart..] == []
      && Frames(n.stream, n.preRoll) == Newest(Frames(s.stream, s.preRoll) + [f], PreRollFrames(c))
  {
    AbsorbSilence(c, s, f);
    var stream, positions := s.stream + [f], s.preRoll + [|s.stream|];
    FramesOfGrownStream(s.stream, f, s.preRoll);
    assert Frames(stream, positions) == Frames(stream, s.preRoll) + [f];
    NewestFrames(stream, positions, PreRollFrames(c));
  }

  lemma VoiceFrames(c: Config, s: Vad, f: Pcm)
    requires ValidConfig(c) && Sound(c, s) && s.active.None? && Voiced(c, f)
    ensures
      var n := Absorb(c, s, f);
      var run := n.stream[s.candidateStart..];
      && run == s.stream[s.candidateStart..] + [f] && Frames(n.stream, s.preRoll) == Frames(s.stream, s.preRoll)
      && CountVoiced(c, run) == |run| && TrailingSilence(c, run) == 0
      && if |run| * FRAME_MS < c.startTriggerMs then
           Sound(c, n) && n.active.None? && n.preRoll == s.preRoll && n.candidateStart == s.candidateStart
         else n.active == Some(Active(s.preRoll, s.candidateStart)) && SoundActive(c, n.stream, n.active.value)
  {
    AbsorbVoice(c, s, f);
    FramesOfGrownStream(s.stream, f, s.preRoll);
    EveryFrameCounts(c, Absorb(c, s, f).stream[s.candidateStart..]);
  }

  class EnergyVadSegmenter {
    const config: Config
    var preRoll: seq<Pcm>
    var candidate: seq<Pcm>
    var candidateMs: nat
    var active: Option<seq<Pcm>>
    var voicedMs: nat
    var durationMs: nat
    var silenceMs: nat
    ghost var model: Vad

    ghost predicate Counted()
      reads this
      requires Sound(config, model)
    {
      match model.active
      case None =>
        && active.None? && candidate == model.stream[model.candidateStart..]
        && candidateMs == |candidate| * FRAME_MS
        && preRoll == Frames(model.stream, model.preRoll)
      case Some(a) => Underway(model.stream, a)
    }

    ghost predicate Underway(stream: seq<Pcm>, a: Active)
      reads this
      requires a.start <= |stream| && Within(a.pre, |stream|)
    {
      && active == Some(Frames(stream, a.pre) + stream[a.start..])
      && candidate == [] && candidateMs == 0 && preRoll == []
      && voicedMs == CountVoiced(config, stream[a.start..]) * FRAME_MS
      && durationMs == (|a.pre| + |stream| - a.start) * FRAME_MS
      && silenceMs == TrailingSilence(config, stream[a.start..]) * FRAME_MS
    }

    ghost predicate Valid()
      reads this
    {
      ValidConfig(config) && Sound(config, model) && Counted()
    }

    constructor (config: Config)
      requires ValidConfig(config)
      ensures Valid() && model == SILENT && this.config == config
    {
      this.config := config;
      preRoll, candidate, candidateMs, active := [], [], 0, None;
      voicedMs, durationMs, silenceMs := 0, 0, 0;
      model := SILENT;
    }

    method ClearBuffers()
      modifies this`preRoll, this`candidate, this`candidateMs, this`active,
        this`voicedMs, this`durationMs, this`silenceMs
      ensures preRoll == [] && candidate == [] && candidateMs == 0 && active.None?
      ensures voicedMs == durationMs == silenceMs == 0
    {
      preRoll, candidate, candidateMs, active := [], [], 0, None;
      voicedMs, durationMs, silenceMs := 0, 0, 0;
    }

    method Reset()
      requires Valid()
      modifies this
      ensures Valid() && model == VadModel.Reset(old(model))
    {
      ClearBuffers();
      model := VadModel.Reset(model);
    }

    method RmsOf(f: Pcm) returns (rms: nat)
      ensures rms == Rms(f)
    {
      var squares := 0;
      var i := 0;
      while i < |f|
        invariant i <= |f|
        invariant squares == Squares(f[..i])
      {
        assert f[..i + 1][..i] == f[..i];
        squares := squares + Square(f[i]);
        i := i + 1;
      }
      assert f[..|f|] == f;
      return ISqrt(squares / FRAME_SAMPLES);
    }

    method PushInactive(f: Pcm, voiced: bool)
      requires Valid() && active.None? && voiced == Voiced(config, f)
      modifies this
      ensures model == Absorb(config, old(model), f)
      ensures model.active.Some? ==>
              SoundActive(config, model.stream, model.active.value) && Underway(model.stream, model.active.value)
      ensures model.active.None? ==> Valid()
    {
      ghost var was := model;
      model := Absorb(config, model, f);
      if !voiced {
        SilenceFrames(config, was, f);
        candidate, candidateMs := [], 0;
        preRoll := Newest(preRoll + [f], config.preRollMs / FRAME_MS);
        return;
      }
      VoiceFrames(config, was, f);
      candidate := candidate + [f];
      candidateMs := candidateMs + FRAME_MS;
      if candidateMs < config.startTriggerMs {
        return;
      }
      BeginUtterance();
    }

    /** The pre-roll and the triggering frames become the utterance. */
    method BeginUtterance()
      modifies this`active, this`voicedMs, this`durationMs, this`silenceMs,
        this`preRoll, this`candidate, this`candidateMs
      ensures active == Some(old(preRoll) + old(candidate)) && preRoll == [] && candidate == [] && candidateMs == 0
      ensures voicedMs == old(candidateMs) && silenceMs == 0
      ensures durationMs == (|old(preRoll)| + |old(candidate)|) * FRAME_MS
    {
      active := Some(preRoll + candidate);
      voicedMs, durationMs, silenceMs := candidateMs, |active.value| * FRAME_MS, 0;
      preRoll, candidate, candidateMs := [], [], 0;
    }

    method PushActive(f: Pcm, voiced: bool)
      requires Valid() && active.Some? && voiced == Voiced(config, f)
      modifies this
      ensures model == Absorb(config, old(model), f)
      ensures model.active.Some? && SoundActive(config, model.stream, model.active.value)
        && Underway(model.stream, model.active.value)
    {
      AbsorbKeeps(config, model, f);
      ghost var was, a := model.stream, model.active.value;
      model := Absorb(config, model, f);
      FramesOfGrownStream(was, f, a.pre);
      OneMoreFrame(config, was[a.start..], f);
      assert model.stream[a.start..] == was[a.start..] + [f];
      active := Some(active.value + [f]);
      assert active.value == Frames(model.stream, a.pre) + model.stream[a.start..];
      durationMs := durationMs + FRAME_MS;
      if voiced {
        voicedMs, silenceMs := voicedMs + FRAME_MS, 0;
      } else {
        silenceMs := silenceMs + FRAME_MS;
      }
    }

    method Finish(keepTail: bool) returns (emitted: Option<seq<Pcm>>)
      requires ValidConfig(config) && model.active.Some? && SoundActive(config, model.stream, model.active.value)
      requires Underway(model.stream, model.active.value)
      modifies this
      ensures model == VadModel.Finish(config, old(model), keepTail).0
      ensures preRoll == Frames(model.stream, model.preRoll) && candidate == [] && candidateMs == 0 && active.None?
      ensures emitted == AudioOf(model.stream, VadModel.Finish(config, old(model), keepTail).1)
    {
      ghost var a, stream := model.active.value, model.stream;
      var frames, voiced := active.value, voicedMs;
      var tail :=
        if keepTail && config.preRollMs / FRAME_MS > 0 then Newest(frames, config.preRollMs / FRAME_MS) else [];
      ClearBuffers();
      preRoll := tail;
      TailFrames(config, stream, a, keepTail);
      model := VadModel.Finish(config, model, keepTail).0;
      return if voiced < config.minimumSpeechMs then None else Some(frames);
    }

    /** The frame is gated and added to the utterance, the candidate or the pre-roll. */
    method TakeIn(samples: Pcm)
      requires Valid()
      modifies this
      ensures model == Absorb(config, old(model), samples)
      ensures active.Some? <==> model.active.Some?
      ensures model.active.Some? ==>
                SoundActive(config, model.stream, model.active.value) && Underway(model.stream, model.active.value)
      ensures model.active.None? ==> Valid()
    {
      var rms := RmsOf(samples);
      var voiced := rms >= config.threshold;
      if active.None? {
        PushInactive(samples, voiced);
      } else {
        PushActive(samples, voiced);
      }
    }

    /** Enough trailing silence ends an utterance, and so does its greatest length. */
    method FinishIfOver() returns (emitted: Option<seq<Pcm>>)
      requires ValidConfig(config) && model.active.Some? && SoundActive(config, model.stream, model.active.value)
      requires Underway(model.stream, model.active.value)
      modifies this
      ensures model == Decide(config, old(model)).0 && emitted == AudioOf(model.stream, Decide(config, old(model)).1)
      ensures model.active.Some? ==> model == old(model) && Underway(model.stream, model.active.value)
      ensures model.active.None? ==>
                preRoll == Frames(model.stream, model.preRoll) && candidate == [] && candidateMs == 0 && active.None?
    {
      emitted := None;
      if silenceMs >= config.endSilenceMs {
        emitted := Finish(true);
      } else if durationMs >= config.maximumMs {
        emitted := Finish(false);
      }
    }

    /** A frame of the wrong length is refused. `emitted` is the audio of an utterance that ended. */
    method Push(samples: seq<int>) returns (ok: bool, emitted: Option<seq<Pcm>>)
      requires Valid()
      modifies this
      ensures Valid() && (ok <==> |samples| == FRAME_SAMPLES)
      ensures !ok ==> model == old(model) && emitted.None?
      ensures ok ==>
        var (n, u) := VadModel.Push(config, old(model), samples);
        model == n && emitted == AudioOf(n.stream, u)
    {
      if |samples| != FRAME_SAMPLES {
        return false, None;
      }
      PushKeepsSound(config, model, samples);
      TakeIn(samples);
      emitted := None;
      if active.Some? {
        emitted := FinishIfOver();
      }
      ok := true;
    }
  }
}
