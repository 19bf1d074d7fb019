/** The turn manager object, one method per locked section, proved against TurnModel. */
module DialogueTurns {
  import opened Contracts
  import opened TurnModel

  class DialogueTurnManager {
    var version: nat
    var pending: Option<Token>
    ghost var consumed: seq<Token>
    ghost var effects: seq<Token>

    ghost function Model(): Turns
      reads this
    {
      Turns(version, pending, consumed, effects)
    }

    constructor ()
      ensures Model() == NO_TURNS
    {
      version, pending, consumed, effects := 0, None, [], [];
    }

    method BeginTurn(id: string) returns (token: Token)
      modifies this
      ensures (Model(), token) == Begin(old(Model()), id)
    {
      version := version + 1;
      token := Token(id, version);
      pending := Some(token);
    }

    method ClaimCurrent(token: Token) returns (ok: bool)
      modifies this
      ensures (Model(), ok) == Claim(old(Model()), token)
    {
      if pending != Some(token) {
        return false;
      }
      pending := None;
      consumed := consumed + [token];
      return true;
    }

    /** The side effect runs where `effects` grows; it ends the turn even if it raises. */
    method ApplyIfCurrent(token: Token) returns (ran: bool)
      modifies this
      ensures (Model(), ran) == Apply(old(Model()), token)
    {
      if pending != Some(token) {
        return false;
      }
      effects := effects + [token];
      pending := None;
      consumed := consumed + [token];
      return true;
    }

    method InvalidatePending() returns (current: nat)
      modifies this
      ensures Model() == Invalidate(old(Model())) && current == version
    {
      if pending.Some? {
        version := version + 1;
        pending := None;
      }
      return version;
    }
  }
}
