/**
 Dialogue turns: a version counter and the one turn that may still act. Each transition is one section under
 the turn lock; applying a turn runs its side effect inside that section, whether or not the effect raises.
 */
module TurnModel {
  import opened Contracts

  datatype Token = Token(id: string, version: nat)

  /** `consumed` and `effects` remember, in order, the turns that were decided and those whose effect ran. */
  datatype Turns = Turns(version: nat, pending: Option<Token>, consumed: seq<Token>, effects: seq<Token>)

  const NO_TURNS := Turns(0, None, [], [])

  function Begin(s: Turns, id: string): (Turns, Token) {
    var token := Token(id, s.version + 1);
    (s.(version := s.version + 1, pending := Some(token)), token)
  }

  predicate IsCurrent(s: Turns, t: Token) {
    s.pending == Some(t)
  }

  function Claim(s: Turns, t: Token): (Turns, bool) {
    if !IsCurrent(s, t) then (s, false) else (s.(pending := None, consumed := s.consumed + [t]), true)
  }

  function Apply(s: Turns, t: Token): (Turns, bool) {
    var (claimed, ok) := Claim(s, t);
    if ok then (claimed.(effects := s.effects + [t]), true) else (s, false)
  }

  function Invalidate(s: Turns): Turns {
    if s.pending.Some? then s.(version := s.version + 1, pending := None) else s
  }
}
