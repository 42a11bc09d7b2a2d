/**
 * Role checks over a user's role list (src/access/utils.ts).
 *
 * A user's roles are an array of strings that may be `undefined` and may hold
 * values outside the role enumeration; a requirement is either one role or an
 * array of roles. Every check is a pure boolean function.
 */
module AccessUtils {
  import opened Wrappers

  /** A role identifier, as stored in a user's `roles` array. */
  type Role = string

  /**
   * The two members of the role enumeration the checks name. Their literal
   * values are not part of this model. The proofs need both to be non-empty
   * and different from "editor"; their being distinct only keeps
   * `AdminOnlyIsAtLeastAdmin` callable.
   */
  const SuperAdmin: Role := "super-admin"
  const Admin: Role := "admin"

  /** The requirement the Users collection places on every operation. */
  const AdminTier: seq<Role> := [Admin, SuperAdmin]

  /** Role hierarchy, highest privilege first. */
  const Hierarchy: seq<Role> := [SuperAdmin, Admin]

  /** The `requiredRoles` argument: a single role or an array of roles. */
  datatype Required = One(role: Role) | Many(roles: seq<Role>)

  /** A single required role is rebound to a one-element array. */
  function Normalize(required: Required): seq<Role>
  {
    match required
    case One(r) => [r]
    case Many(rs) => rs
  }

  /** `required.some((role) => roles.includes(role))`, scanning from the left. */
  function SomeIncluded(required: seq<Role>, roles: seq<Role>): (found: bool)
    ensures found <==> exists r :: r in required && r in roles
  {
    if required == [] then false
    else required[0] in roles || SomeIncluded(required[1..], roles)
  }

  /**
   * `hasUserRoles`: an undefined role list is rejected outright; otherwise the
   * user passes when one of the required roles is among their roles.
   */
  function HasUserRoles(roles: Option<seq<Role>>, required: Required): (b: bool)
    ensures roles.None? ==> !b
    ensures roles.Some? ==> (b <==> exists r :: r in Normalize(required) && r in roles.value)
  {
    match roles
    case None => false
    case Some(rs) => SomeIncluded(Normalize(required), rs)
  }

  /** `isSuperAdmin`: `roles?.includes(SuperAdmin) ?? false`. */
  function IsSuperAdmin(roles: Option<seq<Role>>): (b: bool)
    ensures b <==> roles.Some? && SuperAdmin in roles.value
    ensures b == HasUserRoles(roles, One(SuperAdmin))
  {
    match roles
    case None => false
    case Some(rs) => SuperAdmin in rs
  }

  /** `isAdmin`: `roles?.includes(Admin) ?? false`. */
  function IsAdmin(roles: Option<seq<Role>>): (b: bool)
    ensures b <==> roles.Some? && Admin in roles.value
    ensures b == HasUserRoles(roles, One(Admin))
  {
    match roles
    case None => false
    case Some(rs) => Admin in rs
  }

  /** `userIsAtLeastAdmin`: SuperAdmin or Admin. */
  function UserIsAtLeastAdmin(roles: Option<seq<Role>>): (b: bool)
    ensures b <==> roles.Some? && (SuperAdmin in roles.value || Admin in roles.value)
    ensures b == HasUserRoles(roles, Many(AdminTier))
  {
    IsSuperAdmin(roles) || IsAdmin(roles)
  }

  /**
   * Reference reading of the hierarchy comment: the roles reach `tier` when
   * they hold `tier` or a role ranked above it in `Hierarchy`.
   */
  predicate AtLeastTier(roles: Option<seq<Role>>, tier: nat)
    requires tier < |Hierarchy|
  {
    roles.Some? && exists i :: 0 <= i <= tier && Hierarchy[i] in roles.value
  }

  /** The elements of a list, forgetting order and multiplicity. */
  function Elements(s: seq<Role>): set<Role>
  {
    set r | r in s
  }

  // ---------------------------------------------------------------------------
  // Properties of hasUserRoles

  /** A single role and the one-element array holding it are interchangeable. */
  lemma SingleRoleIsSingletonList(roles: Option<seq<Role>>, x: Role)
    ensures HasUserRoles(roles, One(x)) == HasUserRoles(roles, Many([x]))
  {
  }

  /** `some` over an empty array is false, so an empty requirement is never met. */
  lemma EmptyRequirementNeverMet(roles: Option<seq<Role>>)
    ensures !HasUserRoles(roles, Many([]))
  {
  }

  /** The check is a non-empty intersection of the two role sets. */
  lemma HasUserRolesIsIntersection(roles: seq<Role>, required: Required)
    ensures HasUserRoles(Some(roles), required) <==> Elements(Normalize(required)) * Elements(roles) != {}
  {
    var both := Elements(Normalize(required)) * Elements(roles);
    if HasUserRoles(Some(roles), required) {
      var r :| r in Normalize(required) && r in roles;
      assert r in both;
    }
  }

  /**
   * Reordering or duplicating entries of either list leaves the decision
   * unchanged: only the sets of elements matter.
   */
  lemma HasUserRolesDependsOnElementsOnly(roles1: seq<Role>, roles2: seq<Role>, required1: Required, required2: Required)
    requires Elements(roles1) == Elements(roles2)
    requires Elements(Normalize(required1)) == Elements(Normalize(required2))
    ensures HasUserRoles(Some(roles1), required1) == HasUserRoles(Some(roles2), required2)
  {
    HasUserRolesIsIntersection(roles1, required1);
    HasUserRolesIsIntersection(roles2, required2);
  }

  /** Granting more roles never revokes access, nor does accepting more roles. */
  lemma HasUserRolesMonotone(roles1: seq<Role>, roles2: seq<Role>, required1: Required, required2: Required)
    requires Elements(roles1) <= Elements(roles2)
    requires Elements(Normalize(required1)) <= Elements(Normalize(required2))
    ensures HasUserRoles(Some(roles1), required1) ==> HasUserRoles(Some(roles2), required2)
  {
    if HasUserRoles(Some(roles1), required1) {
      var r :| r in Normalize(required1) && r in roles1;
      assert r in Elements(Normalize(required1)) && r in Elements(roles1);
      assert r in Normalize(required2) && r in roles2;
    }
  }

  /** The examples in the documentation of `hasUserRoles`. */
  lemma HasUserRolesExamples()
    ensures HasUserRoles(Some(["admin", "editor"]), One("admin"))
    ensures HasUserRoles(Some(["editor"]), Many(["admin", "editor"]))
    ensures !HasUserRoles(Some(["editor"]), One("admin"))
  {
  }

  // ---------------------------------------------------------------------------
  // Properties of the hierarchy

  /** SuperAdmin alone suffices for "at least Admin". */
  lemma SuperAdminIsAtLeastAdmin(roles: seq<Role>)
    requires SuperAdmin in roles
    ensures UserIsAtLeastAdmin(Some(roles))
    ensures IsSuperAdmin(Some(roles))
  {
  }

  /** An Admin who is not a SuperAdmin is at least Admin but not SuperAdmin. */
  lemma AdminOnlyIsAtLeastAdmin(roles: seq<Role>)
    requires Admin in roles && SuperAdmin !in roles
    ensures UserIsAtLeastAdmin(Some(roles)) && IsAdmin(Some(roles)) && !IsSuperAdmin(Some(roles))
  {
  }

  /** Undefined and empty role lists pass none of the checks. */
  lemma NoRolesPassNothing(required: Required)
    ensures !IsSuperAdmin(None) && !IsAdmin(None) && !UserIsAtLeastAdmin(None) && !HasUserRoles(None, required)
    ensures !IsSuperAdmin(Some([])) && !IsAdmin(Some([])) && !UserIsAtLeastAdmin(Some([])) && !HasUserRoles(Some([]), required)
  {
  }

  /**
   * `userIsAtLeastAdmin` and `isSuperAdmin` agree with the ranked reading of
   * the hierarchy SuperAdmin > Admin.
   */
  lemma ChecksFollowHierarchy(roles: Option<seq<Role>>)
    ensures UserIsAtLeastAdmin(roles) == AtLeastTier(roles, 1)
    ensures IsSuperAdmin(roles) == AtLeastTier(roles, 0)
  {
    if roles.Some? {
      if SuperAdmin in roles.value {
        assert Hierarchy[0] in roles.value;
      } else if Admin in roles.value {
        assert Hierarchy[1] in roles.value;
      }
    }
  }
}
