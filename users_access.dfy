/**
 * The access rules of the Users collection (src/collections/Users/index.ts),
 * which are wiring of the role checks.
 */
module UsersAccess {
  import opened Wrappers
  import opened AccessUtils
  import opened AccessGuard

  /** The collection operations guarded by `authenticatedWithRoles`. */
  datatype Operation = Create | Delete | Read | Update

  /** The operations on the `roles` field that carry their own rule. */
  datatype FieldOperation = FieldRead | FieldUpdate | FieldCreate

  /** Each collection operation requires a user holding Admin or SuperAdmin. */
  function CollectionAccess(op: Operation, user: Option<User>): (allowed: bool)
    ensures allowed <==> user.Some? && UserIsAtLeastAdmin(user.value.roles)
  {
    match op
    case Create => AuthenticatedWithRoles(user, Some(Many([Admin, SuperAdmin])))
    case Delete => AuthenticatedWithRoles(user, Some(Many([Admin, SuperAdmin])))
    case Read => AuthenticatedWithRoles(user, Some(Many([Admin, SuperAdmin])))
    case Update => AuthenticatedWithRoles(user, Some(Many([Admin, SuperAdmin])))
  }

  /** The collection is hidden in the admin UI from everyone but SuperAdmins. */
  function Hidden(user: Option<User>): (hidden: bool)
    ensures hidden <==> !IsSuperAdmin(RolesOf(user))
    ensures user.None? ==> hidden
  {
    !HasUserRoles(RolesOf(user), Many([SuperAdmin]))
  }

  /** Only a SuperAdmin may read, update or set the `roles` field. */
  function RolesFieldAccess(op: FieldOperation, user: Option<User>): (allowed: bool)
    ensures allowed <==> user.Some? && IsSuperAdmin(user.value.roles)
  {
    match op
    case FieldRead => HasUserRoles(RolesOf(user), Many([SuperAdmin]))
    case FieldUpdate => HasUserRoles(RolesOf(user), Many([SuperAdmin]))
    case FieldCreate => HasUserRoles(RolesOf(user), Many([SuperAdmin]))
  }

  /** Whoever may touch the `roles` field may also perform every collection operation. */
  lemma RolesFieldAccessImpliesCollectionAccess(fop: FieldOperation, op: Operation, user: Option<User>)
    ensures RolesFieldAccess(fop, user) ==> CollectionAccess(op, user)
  {
  }

  /** The same user gets the same answer for all four collection operations. */
  lemma CollectionAccessUniform(op1: Operation, op2: Operation, user: Option<User>)
    ensures CollectionAccess(op1, user) == CollectionAccess(op2, user)
  {
  }

  /** An editor is refused, an editor who is also an Admin is admitted. */
  lemma CollectionAccessExamples(op: Operation)
    ensures !CollectionAccess(op, Some(User(Some(["editor"]))))
    ensures CollectionAccess(op, Some(User(Some(["editor", Admin]))))
    ensures !CollectionAccess(op, Some(User(None)))
    ensures !CollectionAccess(op, None)
  {
  }
}
