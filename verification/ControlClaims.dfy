/** Monotonic fencing tokens, one owner per resource. */
module ControlClaims {
  import opened Contracts

  /** The manager's state for one resource. */
  datatype Claim = Claim(token: nat, owner: Option<string>)

  datatype AcquireResult = Acquired(token: nat) | EmptyActionId | Busy(holder: string)

  datatype InvalidateResult = Invalidated(token: nat) | WrongOwner(actual: Option<string>)

  const UNCLAIMED := Claim(0, None)
  const NO_TOKENS: map<Resource, nat> := map r: Resource :: 0
  const NO_OWNERS: map<Resource, Option<string>> := map r: Resource :: None

  function Acquire(c: Claim, actionId: string): (r: (Claim, AcquireResult)) {
    if actionId == "" then (c, EmptyActionId)
    else if c.owner.Some? then (c, Busy(c.owner.value))
    else (Claim(c.token + 1, Some(actionId)), Acquired(c.token + 1))
  }

  function Invalidate(c: Claim, expected: Option<string>): (r: (Claim, InvalidateResult)) {
    if expected.Some? && c.owner != expected then (c, WrongOwner(c.owner))
    else if c.owner.Some? then (Claim(c.token + 1, None), Invalidated(c.token + 1))
    else (c, Invalidated(c.token))
  }

  predicate IsCurrent(c: Claim, lease: Lease) {
    c.token == lease.token && c.owner == lease.actionId && lease.actionId.Some?
  }

  /** Any use of one resource: acquire under an action id, or invalidate. */
  datatype Use = AcquireUse(actionId: string) | InvalidateUse(expected: Option<string>)

  function After(c: Claim, uses: seq<Use>): Claim
    decreases |uses|
  {
    if uses == [] then c
    else match uses[0]
      case AcquireUse(id) => After(Acquire(c, id).0, uses[1..])
      case InvalidateUse(expected) => After(Invalidate(c, expected).0, uses[1..])
  }

  /** A token identifies one ownership for good: once its lease stops being current it never is again. */
  lemma {:induction false} LostLeaseStaysLost(c: Claim, uses: seq<Use>, lease: Lease)
    requires !IsCurrent(c, lease) && lease.token <= c.token
    ensures !IsCurrent(After(c, uses), lease) && lease.token <= After(c, uses).token
    decreases |uses|
  {
    if uses != [] {
      var next := match uses[0]
        case AcquireUse(id) => Acquire(c, id).0
        case InvalidateUse(expected) => Invalidate(c, expected).0;
      LostLeaseStaysLost(next, uses[1..], lease);
    }
  }

  /** Nobody takes an owned resource: its owner keeps it under its token until invalidated for it or for anyone. */
  lemma {:induction false} OwnerKeepsItsLease(c: Claim, uses: seq<Use>)
    requires c.owner.Some?
    requires forall u :: u in uses && u.InvalidateUse? ==> u.expected.Some? && u.expected != c.owner
    ensures After(c, uses) == c
    ensures forall id :: Acquire(c, id).1 == if id == "" then EmptyActionId else Busy(c.owner.value)
    decreases |uses|
  {
    if uses != [] {
      assert uses[0].InvalidateUse? ==> uses[0].expected != c.owner;
      OwnerKeepsItsLease(c, uses[1..]);
    }
  }

  /** Each change of ownership raises the token by one, so from an unused resource it is odd exactly while owned. */
  lemma {:induction false} TokensCountTheChanges(c: Claim, uses: seq<Use>)
    requires c.owner.Some? <==> c.token % 2 == 1
    ensures
      var n := After(c, uses);
      && (n.owner.Some? <==> n.token % 2 == 1)
      && (n.owner.None? ==>
            forall id | id != "" :: Acquire(n, id) == (Claim(n.token + 1, Some(id)), Acquired(n.token + 1)))
      && var released := if n.owner.Some? then n.token + 1 else n.token;
         Invalidate(n, None) == (Claim(released, None), Invalidated(released))
    decreases |uses|
  {
    if uses != [] {
      var next := match uses[0]
        case AcquireUse(id) => Acquire(c, id).0
        case InvalidateUse(expected) => Invalidate(c, expected).0;
      TokensCountTheChanges(next, uses[1..]);
    }
  }
}
