/**
 * The access guard that combines "a user is logged in" with an optional role
 * requirement (src/access/authenticatedWithRoles.ts).
 */
module AccessGuard {
  import opened Wrappers
  import opened AccessUtils

  /** The request's authenticated principal; the guard reads only its roles. */
  datatype User = User(roles: Option<seq<Role>>)

  /**
   * JavaScript's `!requiredRoles`: true for an absent argument and for a single
   * role that is the empty string. Arrays, the empty one included, are truthy.
   */
  predicate IsFalsy(requiredRoles: Option<Required>)
  {
    match requiredRoles
    case None => true
    case Some(One(r)) => r == ""
    case Some(Many(_)) => false
  }

  /** `user?.roles`: undefined when there is no user. */
  function RolesOf(user: Option<User>): Option<seq<Role>>
  {
    match user
    case None => None
    case Some(u) => u.roles
  }

  /**
   * `authenticatedWithRoles`: without a (truthy) requirement any logged-in user
   * passes; with one, the user must also hold one of the required roles.
   */
  function AuthenticatedWithRoles(user: Option<User>, requiredRoles: Option<Required>): (allowed: bool)
    ensures user.None? ==> !allowed
    ensures IsFalsy(requiredRoles) ==> (allowed <==> user.Some?)
    ensures !IsFalsy(requiredRoles) ==>
      (allowed <==> user.Some? && user.value.roles.Some? &&
                    exists r :: r in Normalize(requiredRoles.value) && r in user.value.roles.value)
  {
    if IsFalsy(requiredRoles) then user.Some?
    else user.Some? && HasUserRoles(RolesOf(user), requiredRoles.value)
  }

  /** No user, no access, whatever is required. */
  lemma NoUserNoAccess(requiredRoles: Option<Required>)
    ensures !AuthenticatedWithRoles(None, requiredRoles)
  {
  }

  /** Omitting the requirement admits exactly the logged-in users, whatever their roles. */
  lemma AbsentRequirementAdmitsAnyUser(user: Option<User>)
    ensures AuthenticatedWithRoles(user, None) <==> user.Some?
  {
  }

  /** A present requirement adds `hasUserRoles` on the user's roles to the presence check. */
  lemma PresentRequirementChecksRoles(user: Option<User>, required: Required)
    requires required.Many? || required.role != ""
    ensures AuthenticatedWithRoles(user, Some(required)) == (user.Some? && HasUserRoles(user.value.roles, required))
  {
  }

  /**
   * An empty required array is not an absent one: it denies every user,
   * while omitting the argument admits every logged-in user.
   */
  lemma EmptyArrayIsNotAbsent(u: User)
    ensures AuthenticatedWithRoles(Some(u), None)
    ensures !AuthenticatedWithRoles(Some(u), Some(Many([])))
  {
  }

  /** A logged-in user whose roles are undefined fails every truthy requirement. */
  lemma UndefinedRolesDenied(required: Required)
    requires !IsFalsy(Some(required))
    ensures !AuthenticatedWithRoles(Some(User(None)), Some(required))
  {
  }

  /** Enumeration roles are non-empty, so passing one always takes the role-check path. */
  lemma EnumRoleIsARequirement(user: Option<User>)
    ensures AuthenticatedWithRoles(user, Some(One(SuperAdmin))) == (user.Some? && IsSuperAdmin(user.value.roles))
    ensures AuthenticatedWithRoles(user, Some(One(Admin))) == (user.Some? && IsAdmin(user.value.roles))
  {
  }

  /**
   * With the requirement `[Admin, SuperAdmin]` the guard is "logged in and at
   * least Admin".
   */
  lemma AdminTierGuardIsAtLeastAdmin(user: Option<User>)
    ensures AuthenticatedWithRoles(user, Some(Many(AdminTier))) == (user.Some? && UserIsAtLeastAdmin(user.value.roles))
  {
  }
}
