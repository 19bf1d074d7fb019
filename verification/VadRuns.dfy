/** What every emitted utterance is made of, for every stream of frames and resets. */
module VadRuns {
  import opened Contracts
  import opened VadModel

  datatype Event = PushEvent(frame: Pcm) | ResetEvent

  predicate Ascending(s: seq<nat>, below: nat) {
    (forall i, j :: 0 <= i < j < |s| ==> s[i] < s[j]) && (forall i :: 0 <= i < |s| ==> s[i] < below)
  }

  predicate AllVoiced(c: Config, fs: seq<Pcm>) {
    forall i :: 0 <= i < |fs| ==> Voiced(c, fs[i])
  }

  /** The run of an utterance opens with exactly the frames that triggered it. */
  predicate Triggered(c: Config, stream: seq<Pcm>, start: nat) {
    && start + c.startTriggerMs / FRAME_MS <= |stream|
    && AllVoiced(c, stream[start..start + c.startTriggerMs / FRAME_MS])
  }

  predicate SoundActive(c: Config, stream: seq<Pcm>, a: Active) {
    && Ascending(a.pre, a.start) && |a.pre| <= PreRollFrames(c)
    && Triggered(c, stream, a.start)
  }

  predicate Sound(c: Config, s: Vad) {
    && s.candidateStart <= |s.stream|
    && Ascending(s.preRoll, s.candidateStart) && |s.preRoll| <= PreRollFrames(c)
    && (s.active.Some? ==>
          && SoundActive(c, s.stream, s.active.value)
          && (|s.active.value.pre| + |s.stream| - s.active.value.start) * FRAME_MS < c.maximumMs)
    && (s.active.None? ==>
          && (|s.stream| - s.candidateStart) * FRAME_MS < c.startTriggerMs
          && AllVoiced(c, s.stream[s.candidateStart..]))
  }

  function LongestMs(c: Config): nat {
    if c.maximumMs < c.preRollMs + c.startTriggerMs then c.preRollMs + c.startTriggerMs else c.maximumMs
  }

  lemma NewestIsAscending(s: seq<nat>, n: nat, below: nat)
    requires Ascending(s, below)
    ensures Ascending(Newest(s, n), below) && |Newest(s, n)| <= n
  {
  }

  lemma AbsorbSilence(c: Config, s: Vad, f: Pcm)
    requires Sound(c, s) && ValidConfig(c) && s.active.None? && !Voiced(c, f)
    ensures Sound(c, Absorb(c, s, f)) && Absorb(c, s, f).active.None?
  {
    NewestIsAscending(s.preRoll + [|s.stream|], PreRollFrames(c), |s.stream| + 1);
  }

  lemma AbsorbVoice(c: Config, s: Vad, f: Pcm)
    requires Sound(c, s) && ValidConfig(c) && s.active.None? && Voiced(c, f)
    ensures
      var n := Absorb(c, s, f);
      && n.stream[s.candidateStart..] == s.stream[s.candidateStart..] + [f]
      && AllVoiced(c, n.stream[s.candidateStart..])
      && if (|n.stream| - s.candidateStart) * FRAME_MS < c.startTriggerMs then n.active.None? && Sound(c, n)
         else
           && n.active == Some(Active(s.preRoll, s.candidateStart)) && SoundActive(c, n.stream, n.active.value)
           && n.preRoll == [] && (|n.stream| - s.candidateStart) * FRAME_MS == c.startTriggerMs
  {
    var n := Absorb(c, s, f);
    assert n.stream[s.candidateStart..] == s.stream[s.candidateStart..] + [f];
    if n.active.Some? {
      assert s.candidateStart + c.startTriggerMs / FRAME_MS == |n.stream|;
      assert n.stream[s.candidateStart..|n.stream|] == n.stream[s.candidateStart..];
    }
  }

  lemma AbsorbMore(c: Config, s: Vad, f: Pcm)
    requires Sound(c, s) && ValidConfig(c) && s.active.Some?
    ensures
      var n := Absorb(c, s, f);
      && n.active == s.active && n.preRoll == s.preRoll && n.candidateStart == s.candidateStart
      && SoundActive(c, n.stream, n.active.value)
      && (|n.active.value.pre| + |n.stream| - n.active.value.start) * FRAME_MS <= c.maximumMs
  {
    var a, trigger := s.active.value, c.startTriggerMs / FRAME_MS;
    assert (s.stream + [f])[a.start..a.start + trigger] == s.stream[a.start..a.start + trigger];
  }

  /** Between taking a frame in and deciding: the utterance may have reached its longest length, not more. */
  lemma AbsorbKeeps(c: Config, s: Vad, f: Pcm)
    requires ValidConfig(c) && Sound(c, s)
    ensures
      var n := Absorb(c, s, f);
      && Ascending(n.preRoll, n.candidateStart) && |n.preRoll| <= PreRollFrames(c)
      && (n.active.Some? ==>
            && SoundActive(c, n.stream, n.active.value)
            && (|n.active.value.pre| + |n.stream| - n.active.value.start) * FRAME_MS <= LongestMs(c))
      && (n.active.None? ==> Sound(c, n))
  {
    if s.active.Some? {
      AbsorbMore(c, s, f);
    } else if Voiced(c, f) {
      AbsorbVoice(c, s, f);
    } else {
      AbsorbSilence(c, s, f);
    }
  }

  ghost predicate GoodUtterance(c: Config, stream: seq<Pcm>, u: Utterance) {
    && Ascending(u.pre, u.start) && |u.pre| <= PreRollFrames(c)
    && u.start <= u.end == |stream| && Triggered(c, stream, u.start)
    && CountVoiced(c, stream[u.start..]) * FRAME_MS >= c.minimumSpeechMs
    && (|u.pre| + u.end - u.start) * FRAME_MS <= LongestMs(c)
    && (TrailingSilence(c, stream[u.start..]) * FRAME_MS >= c.endSilenceMs
        || (|u.pre| + u.end - u.start) * FRAME_MS >= c.maximumMs)
  }

  /** Where the next utterance's run can start at the earliest. */
  function Floor(s: Vad): nat {
    if s.active.Some? then s.active.value.start else s.candidateStart
  }

  lemma FinishKeepsSound(c: Config, s: Vad, keepTail: bool)
    requires ValidConfig(c) && s.active.Some? && SoundActive(c, s.stream, s.active.value)
    ensures Sound(c, Finish(c, s, keepTail).0)
  {
    var a := s.active.value;
    var all := a.pre + Range(a.start, |s.stream|);
    assert Ascending(all, |s.stream|);
    NewestIsAscending(all, PreRollFrames(c), |s.stream|);
    assert s.stream[|s.stream|..] == [];
  }

  lemma PushKeepsSound(c: Config, s: Vad, f: Pcm)
    requires ValidConfig(c) && Sound(c, s)
    ensures Sound(c, Push(c, s, f).0) && Push(c, s, f).0.stream == s.stream + [f]
    ensures Floor(s) <= Floor(Push(c, s, f).0)
    ensures Push(c, s, f).1.Some? ==>
      var u := Push(c, s, f).1.value;
      GoodUtterance(c, s.stream + [f], u) && Floor(s) <= u.start < u.end <= Floor(Push(c, s, f).0)
  {
    AbsorbKeeps(c, s, f);
    var n := Absorb(c, s, f);
    if n.active.Some? {
      FinishKeepsSound(c, n, true);
      FinishKeepsSound(c, n, false);
    }
  }

  function Step(c: Config, s: Vad, e: Event): (n: Vad)
    requires ValidConfig(c) && Sound(c, s)
    ensures Sound(c, n)
  {
    match e
    case PushEvent(f) => PushKeepsSound(c, s, f); Push(c, s, f).0
    case ResetEvent => assert s.stream[|s.stream|..] == []; Reset(s)
  }

  function Output(c: Config, s: Vad, e: Event): Option<Utterance>
    requires ValidConfig(c) && Sound(c, s)
  {
    if e.PushEvent? then Push(c, s, e.frame).1 else None
  }

  function Run(c: Config, s: Vad, es: seq<Event>): (n: Vad)
    requires ValidConfig(c) && Sound(c, s)
    ensures Sound(c, n)
    decreases |es|
  {
    if es == [] then s else Run(c, Step(c, s, es[0]), es[1..])
  }

  function Outputs(c: Config, s: Vad, es: seq<Event>): seq<Utterance>
    requires ValidConfig(c) && Sound(c, s)
    decreases |es|
  {
    if es == [] then []
    else
      var later := Outputs(c, Step(c, s, es[0]), es[1..]);
      match Output(c, s, es[0])
      case None => later
      case Some(u) => [u] + later
  }

  lemma SilentIsSound(c: Config)
    requires ValidConfig(c)
    ensures Sound(c, SILENT)
  {
  }

  /**
   Whatever was pushed and reset before, an utterance emitted by a push is at most the pre-roll's number of
   earlier frames in stream order, followed by every frame from its first trigger frame to the one just pushed;
   the run opens with the voiced trigger frames and holds at least the minimum of speech; the whole is never
   longer than the maximum, or than pre-roll plus trigger; and it ended on silence or on the maximum.
   */
  lemma EveryUtteranceIsGood(c: Config, es: seq<Event>, f: Pcm)
    requires ValidConfig(c)
    ensures
      var s := Run(c, SILENT, es);
      Push(c, s, f).1.Some? ==> GoodUtterance(c, s.stream + [f], Push(c, s, f).1.value)
  {
    SilentIsSound(c);
    PushKeepsSound(c, Run(c, SILENT, es), f);
  }

  lemma StepRaisesFloor(c: Config, s: Vad, e: Event)
    requires ValidConfig(c) && Sound(c, s)
    ensures Floor(s) <= Floor(Step(c, s, e))
    ensures Output(c, s, e).Some? ==>
      Floor(s) <= Output(c, s, e).value.start < Output(c, s, e).value.end <= Floor(Step(c, s, e))
  {
    if e.PushEvent? {
      PushKeepsSound(c, s, e.frame);
    }
  }

  /** Each run starts at or after the end of the one before. */
  predicate Separated(us: seq<Utterance>, floor: nat)
    decreases |us|
  {
    us == [] || (floor <= us[0].start < us[0].end && Separated(us[1..], us[0].end))
  }

  lemma SeparatedFromLower(us: seq<Utterance>, floor: nat, lower: nat)
    requires Separated(us, floor) && lower <= floor
    ensures Separated(us, lower)
  {
  }

  lemma {:induction false} OutputsAreSeparated(c: Config, s: Vad, es: seq<Event>)
    requires ValidConfig(c) && Sound(c, s)
    ensures Separated(Outputs(c, s, es), Floor(s))
    decreases |es|
  {
    if es != [] {
      var next := Step(c, s, es[0]);
      StepRaisesFloor(c, s, es[0]);
      OutputsAreSeparated(c, next, es[1..]);
      var later := Outputs(c, next, es[1..]);
      match Output(c, s, es[0])
      case None => SeparatedFromLower(later, Floor(next), Floor(s));
      case Some(u) =>
        SeparatedFromLower(later, Floor(next), u.end);
        assert ([u] + later)[1..] == later;
    }
  }

  lemma {:induction false} SeparatedPair(us: seq<Utterance>, floor: nat, i: nat, j: nat)
    requires Separated(us, floor) && i < |us|
    ensures floor <= us[i].start
    ensures i < j < |us| ==> us[i].end <= us[j].start
    decreases |us|
  {
    if i > 0 {
      SeparatedPair(us[1..], us[0].end, i - 1, if j > 0 then j - 1 else 0);
    } else if j > 0 && j < |us| {
      SeparatedPair(us[1..], us[0].end, j - 1, 0);
    }
  }

  /** The runs of two utterances never overlap: no pushed frame starts or continues speech twice. */
  lemma RunsAreDisjoint(c: Config, es: seq<Event>, i: nat, j: nat)
    requires ValidConfig(c) && i < j < |Outputs(c, SILENT, es)|
    ensures Outputs(c, SILENT, es)[i].end <= Outputs(c, SILENT, es)[j].start
  {
    OutputsAreSeparated(c, SILENT, es);
    SeparatedPair(Outputs(c, SILENT, es), Floor(SILENT), i, j);
  }
}
