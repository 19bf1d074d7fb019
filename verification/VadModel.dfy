/**
 Voice segmentation over the whole stream of pushed frames. Buffers are positions in that stream, so which
 frames an utterance holds, and in which order, can be stated; the segmenter itself keeps only the frames.
 */
module VadModel {
  import opened Contracts

  const FRAME_MS := 20

  const FRAME_SAMPLES := 320

  datatype Config = Config(
    threshold: nat,
    startTriggerMs: nat,
    endSilenceMs: nat,
    preRollMs: nat,
    minimumSpeechMs: nat,
    maximumMs: nat)

  predicate ValidConfig(c: Config) {
    && 0 < c.threshold && 0 < c.startTriggerMs && 0 < c.endSilenceMs && 0 < c.minimumSpeechMs
    && c.startTriggerMs <= c.maximumMs
    && c.startTriggerMs % FRAME_MS == c.endSilenceMs % FRAME_MS == c.preRollMs % FRAME_MS == 0
    && c.minimumSpeechMs % FRAME_MS == c.maximumMs % FRAME_MS == 0
  }

  /** The samples of one 20 ms frame. */
  type Pcm = f: seq<int> | |f| == FRAME_SAMPLES witness seq(FRAME_SAMPLES, i => 0)

  // ---- The energy gate ----

  function Squares(samples: seq<int>): (r: nat)
    decreases |samples|
  {
    if samples == [] then 0
    else
      var last := samples[|samples| - 1];
      Squares(samples[..|samples| - 1]) + Square(last)
  }

  function Square(v: int): (r: nat)
    ensures r == v * v
  {
    if v < 0 then (-v) * (-v) else v * v
  }

  /** The integer square root. */
  function ISqrt(n: nat): (r: nat)
    ensures r * r <= n < (r + 1) * (r + 1)
  {
    if n == 0 then 0
    else
      var r := ISqrt(n - 1);
      if (r + 1) * (r + 1) <= n then r + 1 else r
  }

  function Rms(f: Pcm): nat {
    ISqrt(Squares(f) / FRAME_SAMPLES)
  }

  predicate Voiced(c: Config, f: Pcm) {
    Rms(f) >= c.threshold
  }

  lemma SquaresOrder(a: nat, b: nat)
    ensures a <= b <==> a * a <= b * b
  {
    if a <= b {
      assert a * a <= a * b <= b * b;
    } else {
      assert b * b <= b * a < a * a;
    }
  }

  /** The truncating integer gate is exactly a threshold on the sum of squares. */
  lemma VoicedIffEnergetic(c: Config, f: Pcm)
    ensures Voiced(c, f) <==> Squares(f) >= FRAME_SAMPLES * (c.threshold * c.threshold)
  {
    var mean := Squares(f) / FRAME_SAMPLES;
    var r := ISqrt(mean);
    SquaresOrder(c.threshold, r);
    SquaresOrder(r + 1, c.threshold);
  }

  // ---- The segmenter ----

  /** An utterance in progress: earlier frames kept from before it, then everything pushed since `start`. */
  datatype Active = Active(pre: seq<nat>, start: nat)

  datatype Vad = Vad(stream: seq<Pcm>, preRoll: seq<nat>, candidateStart: nat, active: Option<Active>)

  const SILENT := Vad([], [], 0, None)

  datatype Utterance = Utterance(pre: seq<nat>, start: nat, end: nat)

  /** A bounded queue keeps its newest entries. */
  function Newest<T>(s: seq<T>, n: nat): seq<T> {
    if |s| <= n then s else s[|s| - n..]
  }

  function Range(a: nat, b: nat): seq<nat>
    requires a <= b
  {
    seq(b - a, i requires 0 <= i => a + i)
  }

  function PreRollFrames(c: Config): nat {
    c.preRollMs / FRAME_MS
  }

  function CountVoiced(c: Config, fs: seq<Pcm>): nat
    decreases |fs|
  {
    if fs == [] then 0
    else CountVoiced(c, fs[..|fs| - 1]) + if Voiced(c, fs[|fs| - 1]) then 1 else 0
  }

  function TrailingSilence(c: Config, fs: seq<Pcm>): nat
    decreases |fs|
  {
    if fs == [] || Voiced(c, fs[|fs| - 1]) then 0 else 1 + TrailingSilence(c, fs[..|fs| - 1])
  }

  /** Take one frame in, before deciding whether the utterance is over. */
  function Absorb(c: Config, s: Vad, f: Pcm): (n: Vad)
    requires s.candidateStart <= |s.stream|
    ensures n.stream == s.stream + [f] && n.candidateStart <= |n.stream|
  {
    var stream := s.stream + [f];
    if s.active.Some? then s.(stream := stream)
    else if !Voiced(c, f) then
      Vad(stream, Newest(s.preRoll + [|s.stream|], PreRollFrames(c)), |stream|, None)
    else if (|stream| - s.candidateStart) * FRAME_MS < c.startTriggerMs then s.(stream := stream)
    else Vad(stream, [], |stream|, Some(Active(s.preRoll, s.candidateStart)))
  }

  function Finish(c: Config, s: Vad, keepTail: bool): (Vad, Option<Utterance>)
    requires s.active.Some? && s.active.value.start <= |s.stream|
  {
    var a := s.active.value;
    var tail := if keepTail then Newest(a.pre + Range(a.start, |s.stream|), PreRollFrames(c)) else [];
    (Vad(s.stream, tail, |s.stream|, None),
     if CountVoiced(c, s.stream[a.start..]) * FRAME_MS < c.minimumSpeechMs then None
     else Some(Utterance(a.pre, a.start, |s.stream|)))
  }

  function Decide(c: Config, s: Vad): (Vad, Option<Utterance>)
    requires s.active.Some? ==> s.active.value.start <= |s.stream|
  {
    if s.active.None? then (s, None)
    else
      var a := s.active.value;
      if TrailingSilence(c, s.stream[a.start..]) * FRAME_MS >= c.endSilenceMs then Finish(c, s, true)
      else if (|a.pre| + |s.stream| - a.start) * FRAME_MS >= c.maximumMs then Finish(c, s, false)
      else (s, None)
  }

  function Push(c: Config, s: Vad, f: Pcm): (Vad, Option<Utterance>)
    requires s.candidateStart <= |s.stream|
    requires s.active.Some? ==> s.active.value.start <= |s.stream|
  {
    Decide(c, Absorb(c, s, f))
  }

  function Reset(s: Vad): Vad {
    Vad(s.stream, [], |s.stream|, None)
  }
}
