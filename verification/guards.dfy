/** The three route guards: each admits exactly one user type and refuses
    everything else with Forbidden; none of them ever answers `false`. */
module Guards {
  import opened Common

  /** The check shared by the guards: a user must be present and carry the
      required type. */
  function RequireType(user: Option<Payload>, required: Role, message: string): (r: Result<bool>)
    ensures r.Ok? <==> user.Some? && user.value.userType == required
    ensures r.Ok? ==> r.value
    ensures r.Err? ==> r.error == Error(Forbidden, message)
  {
    if user.None? || user.value.userType != required then Err(Error(Forbidden, message))
    else Ok(true)
  }

  function ConsumerGuard(user: Option<Payload>): (r: Result<bool>)
    ensures r == Ok(true) <==> user.Some? && user.value.userType == Consumer
    ensures r.Err? <==> user.None? || user.value.userType != Consumer
    ensures r.Err? ==> r.error == Error(Forbidden, "Consumer access required")
  {
    RequireType(user, Consumer, "Consumer access required")
  }

  function OwnerGuard(user: Option<Payload>): (r: Result<bool>)
    ensures r == Ok(true) <==> user.Some? && user.value.userType == Owner
    ensures r.Err? <==> user.None? || user.value.userType != Owner
    ensures r.Err? ==> r.error == Error(Forbidden, "Owner access required")
  {
    RequireType(user, Owner, "Owner access required")
  }

  /** The admin guard looks at the user type only: the admin `role` claim
      plays no part, so a moderator passes exactly like a super admin. */
  function AdminGuard(user: Option<Payload>): (r: Result<bool>)
    ensures r == Ok(true) <==> user.Some? && user.value.userType == Admin
    ensures r.Err? <==> user.None? || user.value.userType != Admin
    ensures r.Err? ==> r.error == Error(Forbidden, "Admin access required")
  {
    RequireType(user, Admin, "Admin access required")
  }

  /** Two admins whose tokens differ only in their `role` claim get the same
      answer from the admin guard. */
  lemma AdminRoleIgnored(p: Payload, role: Option<string>)
    ensures AdminGuard(Some(p)) == AdminGuard(Some(p.(role := role)))
  {
  }
}
