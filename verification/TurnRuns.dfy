/** Turn fencing over every interleaving of turn operations. */
module TurnRuns {
  import opened Contracts
  import opened TurnModel

  datatype Event = BeginEvent(id: string) | ClaimEvent(token: Token) | ApplyEvent(token: Token) | InvalidateEvent

  function Step(s: Turns, e: Event): Turns {
    match e
    case BeginEvent(id) => Begin(s, id).0
    case ClaimEvent(t) => Claim(s, t).0
    case ApplyEvent(t) => Apply(s, t).0
    case InvalidateEvent => Invalidate(s)
  }

  function Run(s: Turns, es: seq<Event>): Turns
    decreases |es|
  {
    if es == [] then s else Step(Run(s, es[..|es| - 1]), es[|es| - 1])
  }

  predicate Increasing(ts: seq<Token>) {
    forall i, j :: 0 <= i < j < |ts| ==> ts[i].version < ts[j].version
  }

  predicate Below(ts: seq<Token>, version: nat) {
    forall i :: 0 <= i < |ts| ==> ts[i].version < version
  }

  /** The pending turn is the newest, and everything decided so far is older. */
  predicate Fenced(s: Turns) {
    && Increasing(s.consumed) && Increasing(s.effects)
    && Below(s.consumed, s.version + 1) && Below(s.effects, s.version + 1)
    && (s.pending.Some? ==>
          s.pending.value.version == s.version && Below(s.consumed, s.version) && Below(s.effects, s.version))
  }

  lemma StepKeepsFenced(s: Turns, e: Event)
    requires Fenced(s)
    ensures Fenced(Step(s, e)) && s.version <= Step(s, e).version
    ensures s.consumed <= Step(s, e).consumed && s.effects <= Step(s, e).effects
  {
  }

  /**
   In every run, the turns whose side effect ran have strictly increasing versions: no turn's effect runs twice,
   and none runs after a newer one's. The same holds for the turns decided in any way.
   */
  lemma {:induction false} EffectsIncrease(es: seq<Event>)
    ensures Fenced(Run(NO_TURNS, es))
    ensures Increasing(Run(NO_TURNS, es).effects) && Increasing(Run(NO_TURNS, es).consumed)
    decreases |es|
  {
    if es != [] {
      EffectsIncrease(es[..|es| - 1]);
      StepKeepsFenced(Run(NO_TURNS, es[..|es| - 1]), es[|es| - 1]);
    }
  }

  /** Each turn gets a version above every version issued before. */
  lemma {:induction false} VersionsIncrease(es: seq<Event>, i: nat, id: string)
    requires i <= |es|
    ensures Run(NO_TURNS, es[..i]).version < Begin(Run(NO_TURNS, es), id).1.version
    decreases |es| - i
  {
    if i == |es| {
      assert es[..i] == es;
    } else {
      VersionsIncrease(es, i + 1, id);
      assert es[..i + 1][..i] == es[..i];
      EffectsIncrease(es[..i]);
      StepKeepsFenced(Run(NO_TURNS, es[..i]), es[i]);
    }
  }

  /** What ends a turn: a newer turn, an invalidation, or a decision about this very turn. */
  predicate Ends(e: Event, t: Token) {
    e.BeginEvent? || e.InvalidateEvent? || (e.ClaimEvent? && e.token == t) || (e.ApplyEvent? && e.token == t)
  }

  /** The pending turn was begun by some step and nothing has ended it since. */
  lemma {:induction false} PendingWasBegun(es: seq<Event>) returns (i: nat)
    requires Run(NO_TURNS, es).pending.Some?
    ensures i < |es| && es[i].BeginEvent?
    ensures Run(NO_TURNS, es).pending == Some(Token(es[i].id, Run(NO_TURNS, es[..i]).version + 1))
    ensures forall j :: i < j < |es| ==> !Ends(es[j], Run(NO_TURNS, es).pending.value)
    decreases |es|
  {
    var n := |es| - 1;
    if es[n].BeginEvent? {
      i := n;
    } else {
      i := PendingWasBegun(es[..n]);
      assert es[..n][..i] == es[..i];
      forall j | i < j < n ensures !Ends(es[j], Run(NO_TURNS, es).pending.value) {
        assert es[..n][j] == es[j];
      }
    }
  }

  /**
   A side effect runs only for the newest turn while it is neither invalidated nor already decided: exactly when
   the run begins that turn at some step and nothing ends it before the effect.
   */
  lemma EffectRunsIffTurnIsAlive(es: seq<Event>, t: Token)
    ensures Apply(Run(NO_TURNS, es), t).1 <==>
      exists i :: 0 <= i < |es| && BegunAndAlive(es, i, t)
  {
    if Apply(Run(NO_TURNS, es), t).1 {
      var i := PendingWasBegun(es);
      assert BegunAndAlive(es, i, t);
    }
    if i :| 0 <= i < |es| && BegunAndAlive(es, i, t) {
      AliveIsPending(es, i, t);
    }
  }

  predicate BegunAndAlive(es: seq<Event>, i: nat, t: Token)
    requires i < |es|
  {
    && es[i] == BeginEvent(t.id) && t.version == Run(NO_TURNS, es[..i]).version + 1
    && forall j :: i < j < |es| ==> !Ends(es[j], t)
  }

  lemma {:induction false} AliveIsPending(es: seq<Event>, i: nat, t: Token)
    requires i < |es| && BegunAndAlive(es, i, t)
    ensures Run(NO_TURNS, es).pending == Some(t)
    decreases |es|
  {
    var n := |es| - 1;
    if i < n {
      assert es[..n][..i] == es[..i];
      forall j | i < j < n ensures !Ends(es[..n][j], t) {
        assert es[..n][j] == es[j];
      }
      AliveIsPending(es[..n], i, t);
    }
  }

  /** Some turn was begun and is still alive. */
  ghost predicate SomeTurnIsAlive(es: seq<Event>) {
    exists i :: 0 <= i < |es| && es[i].BeginEvent? &&
                BegunAndAlive(es, i, Token(es[i].id, Run(NO_TURNS, es[..i]).version + 1))
  }

  lemma PendingIffAlive(es: seq<Event>)
    ensures Run(NO_TURNS, es).pending.Some? <==> SomeTurnIsAlive(es)
  {
    if Run(NO_TURNS, es).pending.Some? {
      var i := PendingWasBegun(es);
      assert BegunAndAlive(es, i, Token(es[i].id, Run(NO_TURNS, es[..i]).version + 1));
    }
    if SomeTurnIsAlive(es) {
      var i :| 0 <= i < |es| && es[i].BeginEvent? &&
               BegunAndAlive(es, i, Token(es[i].id, Run(NO_TURNS, es[..i]).version + 1));
      AliveIsPending(es, i, Token(es[i].id, Run(NO_TURNS, es[..i]).version + 1));
    }
  }

  /** The turns begun, and the invalidations that ended one. */
  ghost function Advances(es: seq<Event>): nat
    decreases |es|
  {
    if es == [] then 0
    else
      var before, last := es[..|es| - 1], es[|es| - 1];
      Advances(before) + if last.BeginEvent? || (last.InvalidateEvent? && SomeTurnIsAlive(before)) then 1 else 0
  }

  /** The version counts exactly those; deciding a turn, or invalidating nothing, leaves it. */
  lemma {:induction false} VersionCountsAdvances(es: seq<Event>)
    ensures Run(NO_TURNS, es).version == Advances(es)
    decreases |es|
  {
    if es != [] {
      VersionCountsAdvances(es[..|es| - 1]);
      PendingIffAlive(es[..|es| - 1]);
    }
  }
}
