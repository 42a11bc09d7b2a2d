# Role-based access decisions of the dn-realty CMS backend

This project models the access-control logic of the real-estate listings
backend: the role checks of `src/access/utils.ts` (`isSuperAdmin`, `isAdmin`,
`hasUserRoles`, `userIsAtLeastAdmin`), the guard `authenticatedWithRoles` that
combines "a user is logged in" with an optional role requirement, and the way
the Users collection wires these checks into its access table.

All of it is pure, so every operation is a Dafny function over values:

- `wrappers.dfy` — `Option`, standing for a value that may be `undefined`.
- `access_utils.dfy` (module `AccessUtils`) — roles are strings; a user's role
  list is `Option<seq<Role>>`; a requirement is `One(role)` or `Many(roles)`.
  `SomeIncluded` is `Array.prototype.some` over the required roles with
  `includes` on the user's roles, proved equal to "some required role is held".
- `authenticated_with_roles.dfy` (module `AccessGuard`) — the user is
  `Option<User>`; the requirement is `Option<Required>`, so an omitted argument
  (`None`) and an empty array (`Some(Many([]))`) stay distinct. JavaScript's
  `!requiredRoles` is modelled exactly by `IsFalsy`: an omitted argument and a
  single empty-string role are falsy; every array, the empty one included, is
  truthy.
- `users_access.dfy` (module `UsersAccess`) — the Users collection's
  create/delete/read/update rules, its admin-UI `hidden` rule and the access
  rules of its `roles` field, each reduced to the role checks.

The role enumeration `UserRoleEnum` is defined in `src/access/types`, which is
not part of this model. `SuperAdmin` and `Admin` are constants whose literal
values are placeholders. The proofs depend on them in three ways:

- Both must be non-empty, so that a single enumeration role is a truthy
  requirement (`AccessGuard.EnumRoleIsARequirement`).
- Both must differ from `"editor"`, the role the examples of
  `UsersAccess.CollectionAccessExamples` use for a user who is neither.
- That they are distinct is used by no proof. It only keeps the requires of
  `AccessUtils.AdminOnlyIsAtLeastAdmin` satisfiable.

User role lists may hold strings outside the enumeration (the
documentation uses `'editor'`), and the model accepts any string, as the code
does.

Two consequences of the code are worth stating:

- An empty required-role array is not treated like an omitted one: the code
  takes the role-check branch and `some` over `[]` is false, so every user is
  denied (`AccessGuard.EmptyArrayIsNotAbsent`).
- Role lists are not restricted to the enumeration and are not deduplicated;
  the decision is instead proved to depend only on the set of elements
  (`AccessUtils.HasUserRolesDependsOnElementsOnly`).

## Model

| member | source | states |
|---|---|---|
| `AccessUtils.SomeIncluded` | src/access/utils.ts:40 | `some` with `includes` is true iff some required role is among the user's roles |
| `AccessUtils.HasUserRoles` | src/access/utils.ts:32-41 | false for an undefined role list; otherwise true iff some role of the normalised requirement is held |
| `AccessUtils.IsSuperAdmin` | src/access/utils.ts:8-10 | true iff the list is defined and contains SuperAdmin; equals `hasUserRoles(roles, SuperAdmin)` |
| `AccessUtils.IsAdmin` | src/access/utils.ts:17-19 | true iff the list is defined and contains Admin; equals `hasUserRoles(roles, Admin)` |
| `AccessUtils.UserIsAtLeastAdmin` | src/access/utils.ts:51-53 | true iff the list is defined and holds SuperAdmin or Admin; equals `hasUserRoles(roles, [Admin, SuperAdmin])` |
| `AccessUtils.SingleRoleIsSingletonList` | src/access/utils.ts:37-39 | a single required role and the one-element array holding it give the same answer |
| `AccessUtils.EmptyRequirementNeverMet` | src/access/utils.ts:40 | an empty required array is never satisfied, whatever the roles |
| `AccessUtils.HasUserRolesIsIntersection` | src/access/utils.ts:40 | for a defined list the check is "required set and held set intersect" |
| `AccessUtils.HasUserRolesDependsOnElementsOnly` | src/access/utils.ts:40 | reordering or duplicating entries of either list does not change the answer |
| `AccessUtils.HasUserRolesMonotone` | src/access/utils.ts:40 | holding more roles, or accepting more roles, never turns true into false |
| `AccessUtils.HasUserRolesExamples` | src/access/utils.ts:28-30 | the three documented examples give true, true, false |
| `AccessUtils.SuperAdminIsAtLeastAdmin` | src/access/utils.ts:51-53 | a list containing SuperAdmin is at least Admin, with or without Admin |
| `AccessUtils.AdminOnlyIsAtLeastAdmin` | src/access/utils.ts:51-53 | Admin without SuperAdmin is at least Admin and Admin but not SuperAdmin |
| `AccessUtils.NoRolesPassNothing` | src/access/utils.ts:8-53 | undefined and empty role lists fail every check |
| `AccessUtils.ChecksFollowHierarchy` | src/access/utils.ts:46-53 | `userIsAtLeastAdmin` and `isSuperAdmin` equal "holds the tier or a higher one" in the order SuperAdmin > Admin |
| `AccessGuard.AuthenticatedWithRoles` | src/access/authenticatedWithRoles.ts:10-13 | no user is always denied; a falsy requirement admits exactly the present users; otherwise a present user with defined roles holding some required role |
| `AccessGuard.NoUserNoAccess` | src/access/authenticatedWithRoles.ts:11-12 | without a user the guard denies for every requirement |
| `AccessGuard.AbsentRequirementAdmitsAnyUser` | src/access/authenticatedWithRoles.ts:11 | with the requirement omitted the answer is "a user is present", whatever the roles |
| `AccessGuard.PresentRequirementChecksRoles` | src/access/authenticatedWithRoles.ts:12 | with a truthy requirement the answer is "user present and `hasUserRoles(user.roles, requirement)`" |
| `AccessGuard.EmptyArrayIsNotAbsent` | src/access/authenticatedWithRoles.ts:11-12 | a logged-in user passes with the argument omitted and fails with `[]` |
| `AccessGuard.UndefinedRolesDenied` | src/access/authenticatedWithRoles.ts:12 | a logged-in user with undefined roles fails every truthy requirement |
| `AccessGuard.EnumRoleIsARequirement` | src/access/authenticatedWithRoles.ts:11-12 | a single enumeration role is truthy and reduces to `isSuperAdmin` / `isAdmin` on a present user |
| `AccessGuard.AdminTierGuardIsAtLeastAdmin` | src/access/authenticatedWithRoles.ts:12 | with `[Admin, SuperAdmin]` the guard equals "user present and at least Admin" |
| `UsersAccess.CollectionAccess` | src/collections/Users/index.ts:14-17 | every Users operation is allowed iff a user is present and is at least Admin |
| `UsersAccess.Hidden` | src/collections/Users/index.ts:23 | the collection is hidden iff the user is not a SuperAdmin (always hidden without a user) |
| `UsersAccess.RolesFieldAccess` | src/collections/Users/index.ts:42-44 | the `roles` field may be read, updated or set iff a present user is a SuperAdmin |
| `UsersAccess.RolesFieldAccessImpliesCollectionAccess` | src/collections/Users/index.ts:14-44 | whoever may touch the `roles` field may perform every collection operation |
| `UsersAccess.CollectionAccessUniform` | src/collections/Users/index.ts:14-17 | the four collection operations give the same answer for the same user |
| `UsersAccess.CollectionAccessExamples` | src/collections/Users/index.ts:14-17 | an editor is denied, an editor who is also Admin is admitted, a user without roles and no user are denied |

## Left out

- The values of `UserRoleEnum` (`src/access/types` is not part of this model): the constants are placeholders, non-empty and different from `"editor"` and from each other.
- The Payload framework around the guard: `AccessArgs`, the `AccessResult` type and its `Promise` form; the guard is modelled on the request's user alone and returns a boolean.
- The user record's fields other than `roles` (name, email, authentication data), which the checks never read.
- The helpers `authenticated`, `authenticatedOrPublished` and `anyone`, and so the Users `admin` rule (src/collections/Users/index.ts:13): their source is not part of this model, and the published-or-authenticated rule depends on document state.
- The schema of the Listings, PropertyTypes and Users collections (fields, labels, admin UI, versions, drafts, live preview) and the `roles` select field's option list: declarative configuration with no decision logic.
- The Listings revalidation hook: it only calls the web framework's cache invalidation and logger.
