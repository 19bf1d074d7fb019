/** When an utterance begins, when it ends, whether it is emitted, and which earlier frames open it. */
module VadCourse {
  import opened Contracts
  import opened VadModel
  import opened VadRuns

  // ---- Counting speech and silence ----

  /** Voiced frames are counted one by one. */
  lemma {:induction false} VoicedFramesAddUp(c: Config, a: seq<Pcm>, b: seq<Pcm>)
    ensures CountVoiced(c, a + b) == CountVoiced(c, a) + CountVoiced(c, b)
    ensures CountVoiced(c, b) <= |b| && (CountVoiced(c, b) == |b| <==> AllVoiced(c, b))
    decreases |b|
  {
    if b == [] {
      assert a + b == a;
    } else {
      VoicedFramesAddUp(c, a, b[..|b| - 1]);
      assert (a + b)[..|a + b| - 1] == a + b[..|b| - 1];
      assert AllVoiced(c, b) <==> AllVoiced(c, b[..|b| - 1]) && Voiced(c, b[|b| - 1]);
    }
  }

  /** Trailing silence is exactly the unvoiced frames after the last voiced one. */
  lemma {:induction false} SilenceIsTrailing(c: Config, fs: seq<Pcm>)
    ensures
      var k := TrailingSilence(c, fs);
      && k <= |fs| && (forall i :: |fs| - k <= i < |fs| ==> !Voiced(c, fs[i]))
      && (k < |fs| ==> Voiced(c, fs[|fs| - 1 - k]))
    decreases |fs|
  {
    if fs != [] && !Voiced(c, fs[|fs| - 1]) { SilenceIsTrailing(c, fs[..|fs| - 1]); }
  }

  // ---- The end of an utterance ----

  /** The silence after its last voiced frame has lasted long enough. */
  predicate Silenced(c: Config, run: seq<Pcm>) {
    TrailingSilence(c, run) * 20 >= c.endSilenceMs
  }

  predicate Ends(c: Config, pre: seq<nat>, run: seq<Pcm>) {
    Silenced(c, run) || (|pre| + |run|) * 20 >= c.maximumMs
  }

  /** As many as fit of the last entries, in their order. */
  predicate LatestOf(kept: seq<nat>, all: seq<nat>, n: nat) {
    |kept| == (if |all| < n then |all| else n) && kept == all[|all| - |kept|..]
  }

  /** Silence leaves the newest frames of an utterance as the next pre-roll, its greatest length leaves none. */
  predicate TailOf(c: Config, kept: seq<nat>, frames: seq<nat>, silenced: bool) {
    if silenced then LatestOf(kept, frames, c.preRollMs / 20) else kept == []
  }

  /**
   An utterance under way ends exactly when enough silence has followed its speech or it has become too long, and it is
   emitted then exactly when it holds enough speech.
   */
  lemma UtteranceEndsIff(c: Config, s: Vad, f: Pcm)
    requires ValidConfig(c) && Sound(c, s) && s.active.Some?
    ensures
      var a := s.active.value;
      var run := (s.stream + [f])[a.start..];
      var (n, emitted) := Push(c, s, f);
      && n.active == (if Ends(c, a.pre, run) then None else s.active)
      && emitted == (if Ends(c, a.pre, run) && CountVoiced(c, run) * 20 >= c.minimumSpeechMs
                     then Some(Utterance(a.pre, a.start, |s.stream| + 1)) else None)
      && (Ends(c, a.pre, run) ==> n.candidateStart == |n.stream|)
      && (Ends(c, a.pre, run) ==>
            TailOf(c, n.preRoll, a.pre + Range(a.start, |s.stream| + 1), Silenced(c, run)))
  {
  }

  // ---- Its beginning ----

  /** Nothing is under way, and the voiced frames since `candidateStart` are not enough yet. */
  predicate Begins(c: Config, s: Vad, f: Pcm) {
    s.active.None? && Voiced(c, f) && (|s.stream| + 1 - s.candidateStart) * 20 >= c.startTriggerMs
  }

  /** What an utterance opens with: the pre-roll, and then the voiced frames that triggered it. */
  lemma BeginningTakesThePreRoll(c: Config, s: Vad, f: Pcm)
    requires ValidConfig(c) && Sound(c, s) && s.active.None?
    ensures
      var run := (s.stream + [f])[s.candidateStart..];
      var (n, emitted) := Push(c, s, f);
      && n.active == (if Begins(c, s, f) && !Ends(c, s.preRoll, run) then Some(Active(s.preRoll, s.candidateStart))
                      else None)
      && emitted == (if Begins(c, s, f) && Ends(c, s.preRoll, run) && CountVoiced(c, run) * 20 >= c.minimumSpeechMs
                     then Some(Utterance(s.preRoll, s.candidateStart, |s.stream| + 1)) else None)
      && (Begins(c, s, f) ==> n.candidateStart == |n.stream| && n.preRoll == [])
  {
  }

  function Pushes(frames: seq<Pcm>): seq<Event> {
    seq(|frames|, i requires 0 <= i < |frames| => PushEvent(frames[i]))
  }

  lemma PushesTail(frames: seq<Pcm>, i: nat)
    requires 0 < |frames| && i < |frames|
    ensures Pushes(frames)[0] == PushEvent(frames[0]) && Pushes(frames)[1..] == Pushes(frames[1..])
    ensures Pushes(frames[..i + 1])[1..] == Pushes(frames[1..][..i])
  {
  }

  /**
   Enough voiced frames in a row always begin an utterance: pushed while none is under way, one of them begins it.
   */
  lemma {:induction false} VoicedFramesBegin(c: Config, s: Vad, frames: seq<Pcm>) returns (i: nat)
    requires ValidConfig(c) && Sound(c, s) && s.active.None? && AllVoiced(c, frames)
    requires |frames| * 20 >= c.startTriggerMs
    ensures i < |frames| && Begins(c, Run(c, s, Pushes(frames[..i])), frames[i])
    decreases |frames|
  {
    i := VoicedFramesComplete(c, s, frames);
  }

  lemma {:induction false} VoicedFramesComplete(c: Config, s: Vad, frames: seq<Pcm>) returns (i: nat)
    requires ValidConfig(c) && Sound(c, s) && s.active.None? && AllVoiced(c, frames)
    requires (|s.stream| - s.candidateStart + |frames|) * 20 >= c.startTriggerMs
    ensures i < |frames| && Begins(c, Run(c, s, Pushes(frames[..i])), frames[i])
    decreases |frames|
  {
    if Begins(c, s, frames[0]) {
      i := 0;
      assert Pushes(frames[..0]) == [];
    } else {
      var next := Step(c, s, PushEvent(frames[0]));
      QuietPush(c, s, frames[0]);
      var k := VoicedFramesComplete(c, next, frames[1..]);
      i := k + 1;
      PushesTail(frames, k);
      assert Pushes(frames[..i])[0] == PushEvent(frames[0]);
    }
  }

  // ---- The pre-roll ----

  /** Where the unvoiced frames lie once these are pushed after `offset` others. */
  function Unvoiced(c: Config, frames: seq<Pcm>, offset: nat): seq<nat>
    decreases |frames|
  {
    if frames == [] then []
    else (if Voiced(c, frames[0]) then [] else [offset]) + Unvoiced(c, frames[1..], offset + 1)
  }

  /** No utterance begins while these are pushed. */
  predicate StaysQuiet(c: Config, s: Vad, frames: seq<Pcm>)
    requires ValidConfig(c) && Sound(c, s)
    decreases |frames|
  {
    frames != [] ==>
      !Begins(c, s, frames[0]) && StaysQuiet(c, Step(c, s, PushEvent(frames[0])), frames[1..])
  }

  lemma QuietPush(c: Config, s: Vad, f: Pcm)
    requires ValidConfig(c) && Sound(c, s) && s.active.None? && !Begins(c, s, f)
    ensures
      var n := Step(c, s, PushEvent(f));
      && n.active.None? && n.stream == s.stream + [f]
      && n.preRoll == Newest(s.preRoll + (if Voiced(c, f) then [] else [|s.stream|]), c.preRollMs / 20)
      && n.candidateStart == (if Voiced(c, f) then s.candidateStart else |n.stream|)
  {
    assert s.preRoll + [] == s.preRoll;
  }

  lemma NewestOfNewest(a: seq<nat>, b: seq<nat>, n: nat)
    ensures Newest(Newest(a, n) + b, n) == Newest(a + b, n)
  {
  }

  lemma JoinNewest(before: seq<nat>, first: seq<nat>, later: seq<nat>, n: nat)
    ensures Newest(Newest(before + first, n) + later, n) == Newest(before + (first + later), n)
  {
    NewestOfNewest(before + first, later, n);
    assert before + first + later == before + (first + later);
  }

  lemma {:induction false} PreRollCollects(c: Config, s: Vad, frames: seq<Pcm>)
    requires ValidConfig(c) && Sound(c, s) && s.active.None? && StaysQuiet(c, s, frames)
    ensures Run(c, s, Pushes(frames)).active.None?
    ensures Run(c, s, Pushes(frames)).preRoll == Newest(s.preRoll + Unvoiced(c, frames, |s.stream|), c.preRollMs / 20)
    decreases |frames|
  {
    if frames == [] {
      assert Pushes(frames) == [] && Unvoiced(c, frames, |s.stream|) == [] && s.preRoll + [] == s.preRoll;
    } else {
      var next := Step(c, s, PushEvent(frames[0]));
      QuietPush(c, s, frames[0]);
      PushesTail(frames, 0);
      assert Run(c, s, Pushes(frames)) == Run(c, next, Pushes(frames[1..]));
      PreRollCollects(c, next, frames[1..]);
      JoinNewest(s.preRoll, if Voiced(c, frames[0]) then [] else [|s.stream|],
                 Unvoiced(c, frames[1..], |s.stream| + 1), c.preRollMs / 20);
    }
  }

  lemma NewestIsLatest(all: seq<nat>, n: nat)
    ensures LatestOf(Newest(all, n), all, n)
  {
  }

  /** While no utterance is under way the pre-roll is the newest of the unvoiced frames, after what it held before. */
  lemma PreRollIsTheNewestSilence(c: Config, s: Vad, frames: seq<Pcm>)
    requires ValidConfig(c) && Sound(c, s) && s.active.None? && StaysQuiet(c, s, frames)
    ensures Run(c, s, Pushes(frames)).active.None?
    ensures LatestOf(Run(c, s, Pushes(frames)).preRoll, s.preRoll + Unvoiced(c, frames, |s.stream|), c.preRollMs / 20)
  {
    PreRollCollects(c, s, frames);
    NewestIsLatest(s.preRoll + Unvoiced(c, frames, |s.stream|), c.preRollMs / 20);
  }

  /** A reset forgets the utterance under way, the candidate and the pre-roll. */
  lemma ResetForgets(s: Vad)
    ensures
      var n := Reset(s);
      n.active.None? && n.preRoll == [] && n.candidateStart == |n.stream| && n.stream == s.stream
  {
  }
}
