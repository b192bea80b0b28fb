/** The boolean guards the handlers evaluate before they write. */
module Policy {
  import opened UserModel

  /** Replacing `before` by `after` grants no privilege flag that `before` lacked. */
  predicate GrantsNothing(before: User, after: User) {
    (after.staff ==> before.staff) && (after.admin ==> before.admin)
  }

  /** The escalation guard of UpdateUser: the body sets Staff or Admin that `stored` lacks. */
  function Escalates(body: User, stored: User): (refused: bool)
    ensures refused <==> !GrantsNothing(stored, body)
    ensures !body.staff && !body.admin ==> !refused
  {
    (body.staff && !stored.staff) || (body.admin && !stored.admin)
  }

  /** The owner guard `user.ID != me.ID`, where `me` is 0 when no principal was found. */
  function IsForeign(targetId: nat, principalId: nat): (refused: bool)
    ensures targetId != 0 && principalId == 0 ==> refused
    ensures !refused ==> targetId == principalId
  {
    targetId != principalId
  }
}
