# PlanWell server core in Dafny

PlanWell is a group meal planner. Users form groups with a role each: admin, moderator or member. Groups share meal
plans. A plan holds meals. Meals list ingredients from a catalogue that all users share. Plans also hold shopping
lists of items, and a list can be generated from a plan. This project models the server's authorization and
membership logic over an abstract store, and proves the guards each procedure applies.

The model covers:

- **The tables.** These are the ten tables of the two schema files, plus the user table of the authentication
  library. Each becomes a row datatype, with its defaults and its references.
- **The store.** `Database.Store` is a class with one sequence field per table. Rows are kept in insertion order,
  because a `.get()` query returns the first matching row.
- **The consistency invariant.** `Database.Consistent` requires unique primary keys and that every reference
  names an existing row. It also requires one row per (meal, ingredient) and one pending invitation per
  (group, invitee); the procedures, not the schema, keep those two.
- **Cascading deletes.** They are one function, `Database.Cascade`, over a set of roots.
- **Permission checks.** The two checks and the rank table (admin 3, moderator 2, member 1) are in `Policy`.
- **The group router.** Group lifecycle, membership with the sole-admin guards, and the invitation state machine:
  pending, then accepted, declined or expired, with lazy expiry. This is `GroupRouter`.
- **The meal-planner router.** This is `MealPlannerRouter`. Its loop that groups a plan's ingredient rows by
  ingredient id and sums their quantities is in `ShoppingAggregation`.

Each procedure that writes is a method on the store. It takes the caller's id, the current time and the fresh
ids it inserts. It returns a `Result` whose error kinds are Forbidden, NotFound, Conflict, BadRequest and
Internal. Its `ensures` clauses give every error case, and they give the new state of each table it may modify
on success and on failure. The consistency invariant is kept by every method.

The read-only procedures are functions of the tables. SQL `UPDATE` and `DELETE` statements are functions on the
row sequences. Two places work row by row, and each is a loop proved against a specification function:

- `GroupRouter.CleanupExpiredInvitations`;
- `ShoppingAggregation.GroupIngredients`, the `forEach` over a `Map`.

## Model

| member | source | states |
|---|---|---|
| Policy.Rank | apps/server/src/routers/routes/group.ts:77-82 | admin ranks 3, moderator 2 and member 1, and no other role has those ranks |
| Policy.CheckGroupPermission | apps/server/src/routers/routes/group.ts:57-90 | success returns a membership row of the caller in the group, and its role meets the requirement; every failure is Forbidden; no row means failure |
| Policy.GroupPermissionIff | apps/server/src/routers/routes/mealPlanner.ts:167-200 | with one row per (group, user), the check passes exactly when the caller has a row whose rank reaches the required rank |
| Policy.GroupPermissionMonotone | apps/server/src/routers/routes/group.ts:77-89 | passing at a role means passing at every lower role, with the same row |
| Policy.CheckMealPlanPermission | apps/server/src/routers/routes/mealPlanner.ts:128-164 | a missing plan and a missing membership are both Forbidden, never NotFound; success returns the plan and the caller's row in the plan's group, and the row's role meets the requirement |
| Policy.MealPlanPermissionIsGroupPermission | apps/server/src/routers/routes/mealPlanner.ts:128-164 | for an existing plan, the meal-plan check succeeds exactly when the group check on the plan's group does, and returns that plan and that row |
| GroupSchema.NewInvitation | apps/server/src/db/schema/group.ts:53-57 | an inserted invitation is pending by default |
| MealSchema.NewMealPlan | apps/server/src/db/schema/mealPlanner.ts:19-21 | a new meal plan is active |
| MealSchema.NewShoppingList | apps/server/src/db/schema/mealPlanner.ts:106-108 | a new shopping list is not completed |
| MealSchema.NewItem | apps/server/src/db/schema/mealPlanner.ts:128-130 | a new shopping-list item is not completed |
| GroupSchema.ReviseGroup | apps/server/src/routers/routes/group.ts:186-190 | an update keeps the group's id, creator and creation time and stamps `updatedAt`; name and description each keep their value when absent and take the given value otherwise |
| MealSchema.RevisePlan | apps/server/src/routers/routes/mealPlanner.ts:303-316 | an update keeps the plan's id, group, creator and creation time and stamps `updatedAt`; each of name, description, start and end date and `isActive` keeps its value when absent and takes the given value otherwise |
| MealSchema.ReviseMeal | apps/server/src/routers/routes/mealPlanner.ts:435-450 | an update never moves a meal to another plan or changes its creator; each of the nine patchable columns keeps its value when absent and takes the given value otherwise; an empty patch changes nothing but `updatedAt` |
| MealSchema.ReviseIngredient | apps/server/src/routers/routes/mealPlanner.ts:573-587 | an update keeps the ingredient's id and creator; name, description, category, unit and each of the four macros keep their value when absent and take the given value otherwise; an empty patch changes nothing but `updatedAt` |
| Database.CascadeKeepsConsistent | apps/server/src/db/schema/mealPlanner.ts:117-124 | a cascading delete leaves no row that references a removed row |
| Database.DeleteGroupRemoves | apps/server/src/db/schema/group.ts:20-24 | deleting a group removes it, its memberships, its invitations and its meal plans, and keeps the store consistent |
| Database.DeleteGroupKeeps | apps/server/src/db/schema/mealPlanner.ts:59-78 | deleting a group leaves the users and the ingredients untouched, since neither table references a group |
| Database.DeleteGroupKeepsRows | apps/server/src/db/schema/group.ts:20-43 | deleting a group keeps every other group, and every membership and invitation of another group |
| Database.DeleteGroupKeepsPlans | apps/server/src/db/schema/mealPlanner.ts:11-13 | deleting a group keeps every meal plan of another group |
| Database.DeletePlanRemoves | apps/server/src/db/schema/mealPlanner.ts:33-35 | deleting a plan removes it, its meals and its lists, and keeps the store consistent |
| Database.DeletePlanKeeps | apps/server/src/db/schema/mealPlanner.ts:7-28 | deleting a plan leaves the users, groups, memberships, invitations and ingredients untouched and keeps every other plan |
| Database.DeleteMealRemoves | apps/server/src/db/schema/mealPlanner.ts:83-85 | deleting a meal removes it and its ingredient rows, and keeps the store consistent |
| Database.DeleteMealKeepsRows | apps/server/src/db/schema/mealPlanner.ts:81-88 | deleting a meal keeps every other meal and every ingredient row of another meal |
| Database.DeleteMealKeeps | apps/server/src/db/schema/mealPlanner.ts:31-35 | deleting a meal leaves the users, groups, memberships, invitations and plans untouched |
| Database.DeleteMealKeepsLists | apps/server/src/db/schema/mealPlanner.ts:117-124 | deleting a meal leaves the ingredients, the shopping lists and their items untouched, since none of them references a meal |
| Database.DeleteUserRemoves | apps/server/src/db/schema/group.ts:15-17 | deleting a user removes their memberships, the invitations they received or sent, and every group, plan, meal, ingredient, list and item they created |
| Database.DeleteUserRemovesIngredientRows | apps/server/src/db/schema/mealPlanner.ts:86-88 | the ingredients a deleted user created take every meal-ingredient row and every shopping-list item naming them with them |
| GroupRouter.Create | apps/server/src/routers/routes/group.ts:94-119 | BadRequest exactly when the bounds fail; otherwise one group is added, with exactly one membership row: the caller, as admin |
| GroupRouter.Update | apps/server/src/routers/routes/group.ts:182-199 | BadRequest, then Forbidden unless the caller is an admin; success rewrites only that group, writing the given fields and keeping those left out |
| GroupRouter.Delete | apps/server/src/routers/routes/group.ts:202-210 | admins only; success is the cascading delete of the group; failure changes nothing |
| GroupRouter.AddMember | apps/server/src/routers/routes/group.ts:213-267 | in order: Forbidden below moderator, Conflict if the target is a member, NotFound if the user is missing; it succeeds exactly when all three checks pass, and success adds exactly one row, whose role defaults to member |
| GroupRouter.UpdateMemberRole | apps/server/src/routers/routes/group.ts:270-319 | Forbidden below admin; Forbidden when the sole admin targets themselves; NotFound without a row; it succeeds exactly when those checks pass, and then only the target's rows change role; the group keeps an admin |
| GroupRouter.AnotherAdmin | apps/server/src/routers/routes/group.ts:288-293 | an admin count of two or more means some admin row belongs to another user |
| GroupRouter.GuardedRemovalKeepsAdmin | apps/server/src/routers/routes/group.ts:349-366 | a removal that the sole-admin guard lets through leaves the group with an admin |
| GroupRouter.RoleChangeKeepsAdmin | apps/server/src/routers/routes/group.ts:276-294 | a role change that the guard of `updateMemberRole` lets through leaves the group with an admin |
| GroupRouter.RemoveMember | apps/server/src/routers/routes/group.ts:322-380 | member of the group; removing another user takes moderator and is Forbidden for the sole admin; self-removal always goes through; it succeeds exactly when those guards pass, and success deletes the target's rows |
| GroupRouter.SelfRemovalOrphansGroup | apps/server/src/routers/routes/group.ts:328-337 | the sole admin removing themselves leaves the group with no admin |
| GroupRouter.RemoveMemberGuarded | apps/server/src/routers/routes/group.ts:337-366 | the same procedure with the guard applied to every target: the sole admin is never removed, every other removal the role checks allow succeeds, and a group with an admin keeps one |
| GroupRouter.Leave | apps/server/src/routers/routes/group.ts:383-424 | Forbidden for non-members and for the sole admin, success otherwise; only the caller's rows go, and the group keeps an admin |
| GroupRouter.SearchUsers | apps/server/src/routers/routes/group.ts:427-464 | BadRequest exactly when the bounds fail; at most `limit` users (default 10), each a non-member whose name contains the query; every such user is listed when fewer than `limit` are returned |
| GroupRouter.MyGroups | apps/server/src/routers/routes/group.ts:122-135 | each entry is an existing group in which the caller has a row with that role and join time |
| GroupRouter.MyGroupsComplete | apps/server/src/routers/routes/group.ts:122-135 | each row of the caller in an existing group is listed, with that row's role and join time |
| GroupRouter.GroupById | apps/server/src/routers/routes/group.ts:138-179 | Forbidden for non-members, then NotFound; any member of an existing group succeeds, and success returns the group and exactly its membership rows |
| GroupRouter.CreateInvitation | apps/server/src/routers/routes/group.ts:467-547 | in order: BadRequest, Forbidden below moderator, Conflict for a member, Conflict for a pending invitation, NotFound; it succeeds exactly when all five checks pass, and success adds one pending invitation expiring `expiresInDays` (1..30, default 7) days later |
| GroupRouter.GroupInvitations | apps/server/src/routers/routes/group.ts:550-626 | moderators and admins only; exactly the group's pending invitations |
| GroupRouter.MyInvitations | apps/server/src/routers/routes/group.ts:629-663 | exactly the pending invitations addressed to the caller |
| GroupRouter.RespondToInvitation | apps/server/src/routers/routes/group.ts:666-735 | NotFound unless the invitation is pending and addressed to the caller; if overdue (strict `<`), it is written as expired and the call fails BadRequest; accept adds a row with the invitation's role and marks it accepted; decline marks it declined |
| GroupRouter.AcceptDuplicatesMembership | apps/server/src/routers/routes/group.ts:704-711 | accepting while already a member leaves two rows for the same (group, user) |
| GroupRouter.CancelInvitation | apps/server/src/routers/routes/group.ts:738-777 | NotFound, then Forbidden below moderator in the invitation's group, then BadRequest unless pending; it succeeds exactly when those checks pass, and success turns the invitation declined |
| GroupRouter.ExpireOverdue | apps/server/src/routers/routes/group.ts:779-794 | exactly the pending invitations past their expiry become expired; every other row is unchanged; no overdue row remains |
| GroupRouter.ExpireOverdueIdempotent | apps/server/src/routers/routes/group.ts:779-794 | a second cleanup at the same time changes nothing |
| GroupRouter.CleanupExpiredInvitations | apps/server/src/routers/routes/group.ts:779-794 | rewriting the rows one at a time yields exactly `ExpireOverdue` of the table |
| MealPlannerRouter.CheckMealAccess | apps/server/src/routers/routes/mealPlanner.ts:416-433 | a missing meal is NotFound whatever the caller's rights; otherwise the result depends only on the permission check on the stored meal's plan |
| MealPlannerRouter.CheckListAccess | apps/server/src/routers/routes/mealPlanner.ts:740-764 | a missing list is NotFound; otherwise the member check on the list's plan decides |
| MealPlannerRouter.CheckItemAccess | apps/server/src/routers/routes/mealPlanner.ts:833-857 | a missing item is NotFound; otherwise the member check on its list's plan decides; success returns the item's first row and its list |
| MealPlannerRouter.CreateMealPlan | apps/server/src/routers/routes/mealPlanner.ts:204-227 | BadRequest, then Forbidden unless the caller is a member of the group; success adds one active plan |
| MealPlannerRouter.MealPlansByGroup | apps/server/src/routers/routes/mealPlanner.ts:229-249 | Forbidden exactly for non-members; otherwise exactly the group's plans |
| MealPlannerRouter.MealPlanById | apps/server/src/routers/routes/mealPlanner.ts:251-296 | Forbidden exactly when the member check on the plan fails, a missing plan included; otherwise the plan and exactly its meals |
| MealPlannerRouter.UpdateMealPlan | apps/server/src/routers/routes/mealPlanner.ts:298-318 | BadRequest, then Forbidden below moderator; success rewrites only that plan |
| MealPlannerRouter.DeleteMealPlan | apps/server/src/routers/routes/mealPlanner.ts:320-328 | admins only; success is the cascading delete of the plan; failure changes nothing |
| MealPlannerRouter.NewMeal | apps/server/src/routers/routes/mealPlanner.ts:341-360 | the new meal belongs to the given plan and the caller; an absent or empty date string leaves `plannedDate` unset, any other is parsed |
| MealPlannerRouter.CreateMeal | apps/server/src/routers/routes/mealPlanner.ts:331-364 | BadRequest, then Forbidden unless a member of the plan's group; success adds one meal |
| MealPlannerRouter.MealIngredientsOf | apps/server/src/routers/routes/mealPlanner.ts:398-404 | each joined pair is one of the meal's ingredient rows with its existing ingredient |
| MealPlannerRouter.MealIngredientsOfComplete | apps/server/src/routers/routes/mealPlanner.ts:398-404 | each ingredient row of the meal whose ingredient exists is listed |
| MealPlannerRouter.MealById | apps/server/src/routers/routes/mealPlanner.ts:366-411 | NotFound before any permission check; then the member check on the stored meal's plan, whose refusal is Forbidden; success returns the meal and its ingredient rows |
| MealPlannerRouter.UpdateMeal | apps/server/src/routers/routes/mealPlanner.ts:413-454 | BadRequest, NotFound, then Forbidden below moderator in the stored meal's plan; success rewrites only that meal |
| MealPlannerRouter.DeleteMeal | apps/server/src/routers/routes/mealPlanner.ts:456-481 | NotFound, then Forbidden below moderator, and no other error; success is the cascading delete of the meal |
| MealPlannerRouter.CreateIngredient | apps/server/src/routers/routes/mealPlanner.ts:484-507 | BadRequest exactly when the bounds fail; no role check; success adds one ingredient created by the caller |
| MealPlannerRouter.Ingredients | apps/server/src/routers/routes/mealPlanner.ts:509-547 | BadRequest unless `limit` is in 1..100 (default 50); at most `limit` ingredients, each matching the search and the category; every match is listed when fewer than `limit` are returned |
| MealPlannerRouter.UpdateIngredient | apps/server/src/routers/routes/mealPlanner.ts:549-591 | BadRequest, NotFound, then Forbidden unless the caller created the ingredient; no role check; success rewrites only that ingredient |
| MealPlannerRouter.AddMealIngredient | apps/server/src/routers/routes/mealPlanner.ts:594-649 | BadRequest (quantity at least 0.1), NotFound, Forbidden for an existing meal the caller may not edit, then Conflict if the meal already lists the ingredient; success adds exactly one row, and the pair stays unique |
| MealPlannerRouter.RemoveMealIngredient | apps/server/src/routers/routes/mealPlanner.ts:651-683 | NotFound, then Forbidden for an existing meal, and no other error; success deletes exactly the rows of that (meal, ingredient) pair |
| MealPlannerRouter.CreateShoppingList | apps/server/src/routers/routes/mealPlanner.ts:686-709 | BadRequest, then Forbidden unless a member of the plan's group; success adds one open list |
| MealPlannerRouter.ShoppingListsByMealPlan | apps/server/src/routers/routes/mealPlanner.ts:711-735 | Forbidden exactly when the member check fails; otherwise exactly the plan's lists |
| MealPlannerRouter.ShoppingListById | apps/server/src/routers/routes/mealPlanner.ts:737-788 | NotFound before any permission check; then the member check, whose refusal is Forbidden; success returns the list and exactly its items |
| MealPlannerRouter.AddShoppingListItem | apps/server/src/routers/routes/mealPlanner.ts:790-828 | BadRequest, NotFound, then Forbidden for an existing list; success adds one open item, with or without an ingredient |
| MealPlannerRouter.ToggleNegates | apps/server/src/routers/routes/mealPlanner.ts:859-867 | a toggle negates the item's flag and changes no other row |
| MealPlannerRouter.ToggleTwice | apps/server/src/routers/routes/mealPlanner.ts:859-867 | toggling twice restores every row's flag; only the item's `updatedAt` moves |
| MealPlannerRouter.ToggleShoppingListItem | apps/server/src/routers/routes/mealPlanner.ts:830-870 | NotFound before any permission check, then Forbidden for an existing item, and no other error; success negates the item's flag and returns the new row |
| MealPlannerRouter.DeleteShoppingListItem | apps/server/src/routers/routes/mealPlanner.ts:872-906 | NotFound, then Forbidden for an existing item, and no other error; success deletes exactly that item |
| MealPlannerRouter.PlanRows | apps/server/src/routers/routes/mealPlanner.ts:919-929 | each joined row comes from an ingredient row of a meal of the plan, with its quantity and unit, and names an existing ingredient |
| MealPlannerRouter.PlanRowsComplete | apps/server/src/routers/routes/mealPlanner.ts:919-929 | each ingredient row of a meal of the plan whose ingredient exists contributes its entry |
| ShoppingAggregation.FoldRows | apps/server/src/routers/routes/mealPlanner.ts:932-945 | the `forEach` that bumps an existing entry or inserts a new one leaves exactly the fold `Fold` of the rows in the map |
| ShoppingAggregation.MapValues | apps/server/src/routers/routes/mealPlanner.ts:961 | reading the map's values in insertion order yields exactly `Lines` of the map |
| ShoppingAggregation.GroupIngredients | apps/server/src/routers/routes/mealPlanner.ts:932-945 | the loop that updates the map in place produces exactly `Aggregate` of the rows |
| ShoppingAggregation.AggregateDistinct | apps/server/src/routers/routes/mealPlanner.ts:932-945 | no ingredient has two entries |
| ShoppingAggregation.AggregateCovers | apps/server/src/routers/routes/mealPlanner.ts:932-945 | an ingredient has an entry exactly when some row names it |
| ShoppingAggregation.AggregateEntries | apps/server/src/routers/routes/mealPlanner.ts:935-944 | each entry has its ingredient's summed quantity, and the name and unit of that ingredient's first row |
| ShoppingAggregation.AggregateOrder | apps/server/src/routers/routes/mealPlanner.ts:961-970 | entries follow the order in which their ingredients first occur |
| ShoppingAggregation.AggregateConservesQuantity | apps/server/src/routers/routes/mealPlanner.ts:932-945 | the entries' quantities add up to the rows' total |
| ShoppingAggregation.AggregateSize | apps/server/src/routers/routes/mealPlanner.ts:932-945 | at most one entry per row |
| MealPlannerRouter.GeneratedItemsMeaning | apps/server/src/routers/routes/mealPlanner.ts:961-975 | one open item per distinct ingredient, in first-occurrence order, with the summed quantity and the first row's name and unit, and no notes |
| MealPlannerRouter.GenerateShoppingList | apps/server/src/routers/routes/mealPlanner.ts:909-978 | Forbidden exactly for non-members; otherwise one new list, even an empty one, and the items for the aggregated rows of the plan |

## Left out

- Transport, session resolution and authentication are out. The caller is a parameter and is assumed to be an
  existing user. Error messages are reduced to their error kind.
- The web client is not part of this model: pages, dialogs, hooks and the client-side role gating.
- The database driver is out. The store is abstract and sequential, so concurrent requests and the race between
  counting admins and deleting are not modelled.
- Every reference is assumed to be enforced. An insert that would break a reference the code does not check is an
  `Internal` error: `addMealIngredient` with an unknown ingredient id, and `addShoppingListItem` with one. The
  source surfaces such a database error as a server error.
- `crypto.randomUUID` is replaced by fresh ids passed in, each with a precondition that it is unused.
  `GenerateShoppingList` takes a sequence of distinct fresh item ids, at least one per meal-ingredient row.
- Time is an integer count of milliseconds, and `new Date()` is the `now` parameter. Adding `expiresInDays` with
  `setDate` is modelled as that many days of `DayMillis` each, so daylight-saving shifts are ignored. Expiry is
  still tested with a strict `<`.
- `createMeal` parses its `plannedDate` string with a `parseDate` function parameter. An invalid date string is not
  modelled.
- Quantities and macros are `real`, with no floating-point rounding. `prepTime`, `cookTime`, `servings` and
  `dayOfWeek` are integers, although the input schema accepts fractional numbers.
- The same holds for `expiresInDays` in `createInvitation` and for the `limit` of `searchUsers` and
  `getIngredients`: the schemas (group.ts:48, group.ts:432, mealPlanner.ts:514) accept fractions. `setDate`
  truncates a fractional day count, and SQL `LIMIT` receives the fraction. The model takes whole numbers only.
- String-length bounds are counted in characters of `seq<char>`. The input schemas count UTF-16 code units, so a
  name made of characters outside the Basic Multilingual Plane hits its bound at half the model's length.
- Timestamp columns are declared with `mode: "timestamp"`, which stores whole seconds. The model keeps the
  milliseconds of `now`, so the expiry comparisons in `respondToInvitation` and `cleanupExpiredInvitations` do not
  see `expiresAt` truncated to the second.
- SQL `LIKE` in `searchUsers` and `getIngredients` is a plain, case-sensitive substring test. Wildcards and case
  folding are not modelled.
- `ORDER BY` clauses are not modelled: results come in table order. The display joins are out too: the creator or
  `addedBy` user columns, and the ingredient left join of list items.
- The join feeding `generateShoppingList` is taken in the order of the `meal_ingredient` table. The database does
  not promise that order, and first-occurrence name, unit and item order depend on it.
- `generateShoppingList` inserts the list and its items as two statements. The model performs both in one step,
  since neither can fail once the checks have passed.
- No procedure deletes a user or an ingredient. The ingredient cascade is therefore stated only through
  `Database.DeleteUser`.
- The schema does not declare (group, user) unique in `group_member`, and the consistency invariant does not
  assume it. `GroupRouter.AcceptDuplicatesMembership` shows a duplicate can arise. The sole-admin lemmas state
  their guarantees for a target with one row.
- GroupRouter.UpdateMemberRole: the guarantee that the group keeps an admin is stated only when the target is
  another user, or when the caller has a single row.
- GroupRouter.RemoveMember: the guarantee that the group keeps an admin is stated only for removing another user
  with a single row. Self-removal does not keep it (see Findings).
- GroupRouter.Leave: the guarantee that the group keeps an admin is stated only when the caller has a single row.
- The inner joins with the user table in `getMealPlanById`, `getMealById`, `getShoppingListById` and the listings
  are not modelled. They never drop a row, because every creator column references an existing user.
- MealPlannerRouter.MealById: its own contract states that the joined pairs are sound. Completeness is the
  separate lemma `MealIngredientsOfComplete`.

## Findings

| source | as written | input that shows it | evidently intended | confidence | as-written member | corrected member |
|---|---|---|---|---|---|---|
| apps/server/src/routers/routes/group.ts:337 | `removeMember` runs the sole-admin check only when the target is not the caller | the only admin of a group calls `removeMember` with their own user id: the row is deleted, and the group has no admin left | the same guard as `leave`, which refuses the sole admin | not executed | GroupRouter.RemoveMember, GroupRouter.SelfRemovalOrphansGroup | GroupRouter.RemoveMemberGuarded |
