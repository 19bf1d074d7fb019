/**
 Audio chunks entering the segmenter. A new session or a gap in the sequence resets it, so no utterance is ever
 spliced from audio that was not recorded in one piece.
 */
module AudioIngest {
  import opened Contracts
  import opened VadModel
  import opened VadRuns
  import opened EnergyVad

  datatype Chunk = Chunk(session: string, sequence: int, pcm: Pcm)

  /** `origins` remembers which chunk each frame of the stream came from. */
  datatype Ingest = Ingest(session: Option<string>, last: Option<int>, vad: Vad, origins: seq<Chunk>)

  const NO_AUDIO := Ingest(None, None, SILENT, [])

  predicate Interrupted(session: Option<string>, last: Option<int>, m: Chunk) {
    session != Some(m.session) || (last.Some? && m.sequence != last.value + 1)
  }

  function Accept(c: VadModel.Config, s: Ingest, m: Chunk): (Ingest, Option<Utterance>)
    requires s.vad.candidateStart <= |s.vad.stream|
    requires s.vad.active.Some? ==> s.vad.active.value.start <= |s.vad.stream|
  {
    var vad := if Interrupted(s.session, s.last, m) then VadModel.Reset(s.vad) else s.vad;
    var (pushed, utterance) := VadModel.Push(c, vad, m.pcm);
    (Ingest(Some(m.session), Some(m.sequence), pushed, s.origins + [m]), utterance)
  }

  // ---- No splicing ----

  predicate AllFrom(positions: seq<nat>, barrier: nat) {
    forall i :: 0 <= i < |positions| ==> barrier <= positions[i]
  }

  /** Everything the segmenter still holds was pushed since `barrier`. */
  predicate HeldFrom(v: Vad, barrier: nat) {
    && barrier <= v.candidateStart && AllFrom(v.preRoll, barrier)
    && (v.active.Some? ==> barrier <= v.active.value.start && AllFrom(v.active.value.pre, barrier))
  }

  predicate HeldUtterance(u: Utterance, barrier: nat) {
    barrier <= u.start && AllFrom(u.pre, barrier)
  }

  lemma NewestFrom(positions: seq<nat>, n: nat, barrier: nat)
    requires AllFrom(positions, barrier)
    ensures AllFrom(Newest(positions, n), barrier)
  {
  }

  lemma AbsorbHolds(c: VadModel.Config, v: Vad, f: Pcm, barrier: nat)
    requires VadRuns.Sound(c, v) && HeldFrom(v, barrier)
    ensures HeldFrom(Absorb(c, v, f), barrier)
  {
    NewestFrom(v.preRoll + [|v.stream|], PreRollFrames(c), barrier);
  }

  lemma FinishHolds(c: VadModel.Config, v: Vad, keepTail: bool, barrier: nat)
    requires v.active.Some? && v.active.value.start <= |v.stream| && HeldFrom(v, barrier)
    ensures HeldFrom(VadModel.Finish(c, v, keepTail).0, barrier)
    ensures VadModel.Finish(c, v, keepTail).1.Some? ==> HeldUtterance(VadModel.Finish(c, v, keepTail).1.value, barrier)
  {
    var a := v.active.value;
    NewestFrom(a.pre + Range(a.start, |v.stream|), PreRollFrames(c), barrier);
  }

  lemma PushHolds(c: VadModel.Config, v: Vad, f: Pcm, barrier: nat)
    requires VadModel.ValidConfig(c) && VadRuns.Sound(c, v) && HeldFrom(v, barrier)
    ensures HeldFrom(VadModel.Push(c, v, f).0, barrier)
    ensures VadModel.Push(c, v, f).1.Some? ==> HeldUtterance(VadModel.Push(c, v, f).1.value, barrier)
  {
    AbsorbHolds(c, v, f, barrier);
    AbsorbKeeps(c, v, f);
    var n := Absorb(c, v, f);
    if n.active.Some? {
      FinishHolds(c, n, true, barrier);
      FinishHolds(c, n, false, barrier);
    }
  }

  /** The chunks from `barrier` on are one session with consecutive sequence numbers. */
  predicate OnePiece(origins: seq<Chunk>, barrier: nat) {
    barrier <= |origins| &&
    forall i :: barrier <= i < |origins| ==>
      && origins[i].session == origins[|origins| - 1].session
      && origins[i].sequence == origins[|origins| - 1].sequence - (|origins| - 1 - i)
  }

  ghost predicate Sound(c: VadModel.Config, s: Ingest, barrier: nat) {
    && VadRuns.Sound(c, s.vad) && |s.origins| == |s.vad.stream|
    && HeldFrom(s.vad, barrier) && OnePiece(s.origins, barrier)
    && (if s.origins == [] then s.session.None? else
          && s.session == Some(s.origins[|s.origins| - 1].session)
          && s.last == Some(s.origins[|s.origins| - 1].sequence))
  }

  /** Where the uninterrupted stretch begins once `m` is in. */
  function Barrier(s: Ingest, m: Chunk, barrier: nat): nat {
    if Interrupted(s.session, s.last, m) then |s.origins| else barrier
  }

  lemma OneMoreChunk(s: Ingest, m: Chunk, barrier: nat)
    requires OnePiece(s.origins, barrier)
    requires if s.origins == [] then s.session.None? else
               && s.session == Some(s.origins[|s.origins| - 1].session)
               && s.last == Some(s.origins[|s.origins| - 1].sequence)
    ensures OnePiece(s.origins + [m], Barrier(s, m, barrier))
  {
  }

  lemma AcceptKeepsSound(c: VadModel.Config, s: Ingest, m: Chunk, barrier: nat)
    requires VadModel.ValidConfig(c) && Sound(c, s, barrier)
    ensures Sound(c, Accept(c, s, m).0, Barrier(s, m, barrier))
    ensures Accept(c, s, m).1.Some? ==>
      && HeldUtterance(Accept(c, s, m).1.value, Barrier(s, m, barrier))
      && GoodUtterance(c, Accept(c, s, m).0.vad.stream, Accept(c, s, m).1.value)
  {
    var interrupted := Interrupted(s.session, s.last, m);
    var vad := if interrupted then VadModel.Reset(s.vad) else s.vad;
    assert s.vad.stream[|s.vad.stream|..] == [];
    PushKeepsSound(c, vad, m.pcm);
    PushHolds(c, vad, m.pcm, Barrier(s, m, barrier));
    OneMoreChunk(s, m, barrier);
  }

  function Run(c: VadModel.Config, ms: seq<Chunk>): (s: Ingest)
    requires VadModel.ValidConfig(c)
    ensures exists b: nat :: Sound(c, s, b)
    decreases |ms|
  {
    if ms == [] then
      assert Sound(c, NO_AUDIO, 0);
      NO_AUDIO
    else
      var s := Run(c, ms[..|ms| - 1]);
      var next := Accept(c, s, ms[|ms| - 1]).0;
      assert exists b: nat :: Sound(c, next, b) by {
        var b: nat :| Sound(c, s, b);
        AcceptKeepsSound(c, s, ms[|ms| - 1], b);
      }
      next
  }

  lemma AcceptRecords(c: VadModel.Config, s: Ingest, m: Chunk)
    requires VadRuns.Sound(c, s.vad)
    ensures Accept(c, s, m).0.origins == s.origins + [m]
  {
  }

  lemma {:induction false} OriginsAreTheChunks(c: VadModel.Config, ms: seq<Chunk>)
    requires VadModel.ValidConfig(c)
    ensures Run(c, ms).origins == ms
    decreases |ms|
  {
    if ms != [] {
      OriginsAreTheChunks(c, ms[..|ms| - 1]);
      AcceptRecords(c, Run(c, ms[..|ms| - 1]), ms[|ms| - 1]);
      assert ms == ms[..|ms| - 1] + [ms[|ms| - 1]];
    }
  }

  predicate Continues(ms: seq<Chunk>, m: Chunk) {
    ms != [] && ms[|ms| - 1].session == m.session && ms[|ms| - 1].sequence + 1 == m.sequence
  }

  /** A chunk that continues the one before goes in as it is; before any other the segmenter is reset, and only then. */
  lemma OnlyInterruptionsReset(c: VadModel.Config, ms: seq<Chunk>, m: Chunk)
    requires VadModel.ValidConfig(c)
    ensures
      var s := Run(c, ms);
      var (n, utterance) := Accept(c, s, m);
      && (n.vad, utterance) == VadModel.Push(c, if Continues(ms, m) then s.vad else VadModel.Reset(s.vad), m.pcm)
      && n.origins == ms + [m]
  {
    OriginsAreTheChunks(c, ms);
    var b: nat :| Sound(c, Run(c, ms), b);
  }

  predicate InUtterance(u: Utterance, p: nat) {
    p in u.pre || u.start <= p < u.end
  }

  /**
   Whatever chunks arrive in whatever order, all frames of one utterance, the pre-roll included, come from one
   session, and two of them lie exactly as far apart in its sequence as in the stream.
   */
  lemma UtterancesAreNeverSpliced(c: VadModel.Config, ms: seq<Chunk>, m: Chunk, p: nat, q: nat)
    requires VadModel.ValidConfig(c)
    requires Accept(c, Run(c, ms), m).1.Some?
    requires InUtterance(Accept(c, Run(c, ms), m).1.value, p) && InUtterance(Accept(c, Run(c, ms), m).1.value, q)
    ensures
      var origins := Accept(c, Run(c, ms), m).0.origins;
      && p < |origins| && q < |origins|
      && origins[p].session == origins[q].session
      && origins[q].sequence - origins[p].sequence == q - p
  {
    var s := Run(c, ms);
    var b: nat :| Sound(c, s, b);
    AcceptKeepsSound(c, s, m, b);
    var u := Accept(c, s, m).1.value;
    InRange(u, p, Barrier(s, m, b));
    InRange(u, q, Barrier(s, m, b));
  }

  lemma InRange(u: Utterance, p: nat, barrier: nat)
    requires InUtterance(u, p) && HeldUtterance(u, barrier) && Ascending(u.pre, u.start) && u.start <= u.end
    ensures barrier <= p < u.end
  {
    if p in u.pre {
      var i :| 0 <= i < |u.pre| && u.pre[i] == p;
    }
  }

  /** The input side of the audio pipeline, over its segmenter object. */
  class AudioInput {
    const vad: EnergyVadSegmenter
    var session: Option<string>
    var last: Option<int>
    ghost var origins: seq<Chunk>

    ghost function Model(): Ingest
      reads this, vad
    {
      Ingest(session, last, vad.model, origins)
    }

    constructor (vad: EnergyVadSegmenter)
      requires vad.model == SILENT
      ensures Model() == NO_AUDIO && this.vad == vad
    {
      this.vad, session, last, origins := vad, None, None, [];
    }

    method AcceptAudio(m: Chunk) returns (emitted: Option<seq<Pcm>>)
      requires vad.Valid()
      modifies this, vad
      ensures vad.Valid() && Model() == Accept(vad.config, old(Model()), m).0
      ensures emitted == AudioOf(vad.model.stream, Accept(vad.config, old(Model()), m).1)
    {
      var sessionChanged := session != Some(m.session);
      var discontinuous := !sessionChanged && last.Some? && m.sequence != last.value + 1;
      if sessionChanged {
        vad.Reset();
        session := Some(m.session);
        last := None;
      } else if discontinuous {
        vad.Reset();
      }
      last := Some(m.sequence);
      var ok: bool;
      ok, emitted := vad.Push(m.pcm);
      origins := origins + [m];
    }
  }
}
