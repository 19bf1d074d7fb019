/** The resource manager object, proved against ControlClaims. */
module ControlResources {
  import opened Contracts
  import opened ControlClaims

  class ControlResourceManager {
    var tokens: map<Resource, nat>
    var owners: map<Resource, Option<string>>

    ghost predicate Valid()
      reads this
    {
      forall r: Resource :: r in tokens && r in owners
    }

    ghost function ClaimOf(r: Resource): Claim
      requires Valid()
      reads this
    {
      Claim(tokens[r], owners[r])
    }

    constructor ()
      ensures Valid() && forall r: Resource :: ClaimOf(r) == UNCLAIMED
    {
      tokens := NO_TOKENS;
      owners := NO_OWNERS;
    }

    method Acquire(r: Resource, actionId: string) returns (result: AcquireResult)
      requires Valid()
      modifies this
      ensures Valid() && (ClaimOf(r), result) == ControlClaims.Acquire(old(ClaimOf(r)), actionId)
      ensures forall other: Resource :: other != r ==> ClaimOf(other) == old(ClaimOf(other))
    {
      if actionId == "" {
        return EmptyActionId;
      }
      if owners[r].Some? {
        return Busy(owners[r].value);
      }
      tokens := tokens[r := tokens[r] + 1];
      owners := owners[r := Some(actionId)];
      return Acquired(tokens[r]);
    }

    method Invalidate(r: Resource, expected: Option<string>) returns (result: InvalidateResult)
      requires Valid()
      modifies this
      ensures Valid() && (ClaimOf(r), result) == ControlClaims.Invalidate(old(ClaimOf(r)), expected)
      ensures forall other: Resource :: other != r ==> ClaimOf(other) == old(ClaimOf(other))
    {
      if expected.Some? && owners[r] != expected {
        return WrongOwner(owners[r]);
      }
      if owners[r].Some? {
        tokens := tokens[r := tokens[r] + 1];
        owners := owners[r := None];
      }
      return Invalidated(tokens[r]);
    }

    method Current(r: Resource) returns (lease: Lease)
      requires Valid()
      ensures lease == Lease(r, ClaimOf(r).token, ClaimOf(r).owner)
    {
      return Lease(r, tokens[r], owners[r]);
    }
  }
}
