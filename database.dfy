/** The store as a whole: a snapshot of all ten tables, the consistency the
    schema's keys and references guarantee, the cascading deletes the
    references declare, and the mutable `Store` the router procedures act on. */
module Database {
  import opened Common
  import opened GroupSchema
  import opened MealSchema

  datatype Tables = Tables(
    users: seq<User>,
    groups: seq<Group>,
    members: seq<GroupMember>,
    invitations: seq<GroupInvitation>,
    plans: seq<MealPlan>,
    meals: seq<Meal>,
    ingredients: seq<Ingredient>,
    mealIngredients: seq<MealIngredient>,
    lists: seq<ShoppingList>,
    items: seq<ShoppingListItem>)

  /** Every primary key is unique, every reference names an existing row, and
      the uniqueness rules the procedures keep hold. */
  ghost predicate Consistent(t: Tables) {
    && UniqueKeys(t.users, UserKey)
    && GroupsOk(t.groups, t.users)
    && MembersOk(t.members, t.groups, t.users)
    && InvitationsOk(t.invitations, t.groups, t.users)
    && PlansOk(t.plans, t.groups, t.users)
    && MealsOk(t.meals, t.plans, t.users)
    && IngredientsOk(t.ingredients, t.users)
    && MealIngredientsOk(t.mealIngredients, t.meals, t.ingredients)
    && ListsOk(t.lists, t.plans, t.users)
    && ItemsOk(t.items, t.lists, t.ingredients, t.users)
  }

  /** The rows a DELETE names directly: at most one user, and any groups, meal
      plans and meals. Every other removal follows from `onDelete: "cascade"`. */
  datatype Roots = Roots(user: Option<Id>, groups: set<Id>, plans: set<Id>, meals: set<Id>)

  predicate ByUser(roots: Roots, id: Id) { roots.user == Some(id) }

  /** Groups removed: the named ones and those the removed user created. */
  function RemovedGroups(t: Tables, roots: Roots): set<Id> {
    roots.groups + set g | g in t.groups && ByUser(roots, g.createdBy) :: g.id
  }

  /** Meal plans removed: named, created by the removed user, or in a removed group. */
  function RemovedPlans(t: Tables, roots: Roots): set<Id> {
    var gs := RemovedGroups(t, roots);
    roots.plans + set p | p in t.plans && (ByUser(roots, p.createdBy) || p.groupId in gs) :: p.id
  }

  /** Meals removed: named, created by the removed user, or in a removed plan. */
  function RemovedMeals(t: Tables, roots: Roots): set<Id> {
    var ps := RemovedPlans(t, roots);
    roots.meals + set m | m in t.meals && (ByUser(roots, m.createdBy) || m.mealPlanId in ps) :: m.id
  }

  /** Ingredients removed: those the removed user created. */
  function RemovedIngredients(t: Tables, roots: Roots): set<Id> {
    set i | i in t.ingredients && ByUser(roots, i.createdBy) :: i.id
  }

  /** Shopping lists removed: created by the removed user, or of a removed plan. */
  function RemovedLists(t: Tables, roots: Roots): set<Id> {
    var ps := RemovedPlans(t, roots);
    set l | l in t.lists && (ByUser(roots, l.createdBy) || l.mealPlanId in ps) :: l.id
  }

  /** The tables after deleting `roots` and everything that references them,
      transitively. */
  function Cascade(t: Tables, roots: Roots): Tables {
    var gs := RemovedGroups(t, roots);
    var ps := RemovedPlans(t, roots);
    var ms := RemovedMeals(t, roots);
    var ings := RemovedIngredients(t, roots);
    var ls := RemovedLists(t, roots);
    Tables(
      Filter(t.users, (u: User) => !ByUser(roots, u.id)),
      Filter(t.groups, (g: Group) => g.id !in gs),
      Filter(t.members, (m: GroupMember) => m.groupId !in gs && !ByUser(roots, m.userId)),
      Filter(t.invitations, (i: GroupInvitation) =>
        i.groupId !in gs && !ByUser(roots, i.invitedUserId) && !ByUser(roots, i.invitedByUserId)),
      Filter(t.plans, (p: MealPlan) => p.id !in ps),
      Filter(t.meals, (m: Meal) => m.id !in ms),
      Filter(t.ingredients, (i: Ingredient) => i.id !in ings),
      Filter(t.mealIngredients, (x: MealIngredient) => x.mealId !in ms && x.ingredientId !in ings),
      Filter(t.lists, (l: ShoppingList) => l.id !in ls),
      Filter(t.items, (x: ShoppingListItem) =>
        x.shoppingListId !in ls && !ByUser(roots, x.addedBy) && !(x.ingredientId.Some? && x.ingredientId.value in ings)))
  }

  function DeleteGroup(t: Tables, groupId: Id): Tables { Cascade(t, Roots(None, {groupId}, {}, {})) }
  function DeletePlan(t: Tables, planId: Id): Tables { Cascade(t, Roots(None, {}, {planId}, {})) }
  function DeleteMeal(t: Tables, mealId: Id): Tables { Cascade(t, Roots(None, {}, {}, {mealId})) }
  function DeleteUser(t: Tables, userId: Id): Tables { Cascade(t, Roots(Some(userId), {}, {}, {})) }

  /** Group-side tables stay consistent after a cascade. */
  lemma CascadeKeepsGroupTables(t: Tables, roots: Roots)
    requires Consistent(t)
    ensures var c := Cascade(t, roots);
      && UniqueKeys(c.users, UserKey)
      && GroupsOk(c.groups, c.users)
      && MembersOk(c.members, c.groups, c.users)
      && InvitationsOk(c.invitations, c.groups, c.users)
  {
    var c := Cascade(t, roots);
    var gs := RemovedGroups(t, roots);
    FilterUniqueKeys(t.users, (u: User) => !ByUser(roots, u.id), UserKey);
    FilterUniqueKeys(t.groups, (g: Group) => g.id !in gs, GroupKey);
    FilterUniqueKeys(t.members, (m: GroupMember) => m.groupId !in gs && !ByUser(roots, m.userId), MemberKey);
    forall id | id in UserIds(t.users) && !ByUser(roots, id) ensures id in UserIds(c.users) {
      var u :| u in t.users && u.id == id;
      assert u in c.users;
    }
    forall id | id in GroupIds(t.groups) && id !in gs ensures id in GroupIds(c.groups) {
      var g :| g in t.groups && g.id == id;
      assert g in c.groups;
    }
    forall g | g in c.groups ensures g.createdBy in UserIds(c.users) {
      assert g.createdBy in UserIds(t.users);
      assert !ByUser(roots, g.createdBy);
    }
    FilterInvitationsOk(t.invitations, t.groups, t.users,
      (i: GroupInvitation) => i.groupId !in gs && !ByUser(roots, i.invitedUserId) && !ByUser(roots, i.invitedByUserId),
      c.groups, c.users);
  }

  /** A user, group, plan, meal, ingredient or list that the cascade does not
      remove is still there afterwards. */
  lemma CascadeKeptIds(t: Tables, roots: Roots)
    ensures var c := Cascade(t, roots);
      && (forall id :: id in UserIds(t.users) && !ByUser(roots, id) ==> id in UserIds(c.users))
      && (forall id :: id in GroupIds(t.groups) && id !in RemovedGroups(t, roots) ==> id in GroupIds(c.groups))
      && (forall id :: id in PlanIds(t.plans) && id !in RemovedPlans(t, roots) ==> id in PlanIds(c.plans))
      && (forall id :: id in MealIds(t.meals) && id !in RemovedMeals(t, roots) ==> id in MealIds(c.meals))
      && (forall id :: id in IngredientIds(t.ingredients) && id !in RemovedIngredients(t, roots) ==>
            id in IngredientIds(c.ingredients))
      && (forall id :: id in ListIds(t.lists) && id !in RemovedLists(t, roots) ==> id in ListIds(c.lists))
  {
    var c := Cascade(t, roots);
    forall id | id in UserIds(t.users) && !ByUser(roots, id) ensures id in UserIds(c.users) {
      var u :| u in t.users && u.id == id;
      assert u in c.users;
    }
    forall id | id in GroupIds(t.groups) && id !in RemovedGroups(t, roots) ensures id in GroupIds(c.groups) {
      var g :| g in t.groups && g.id == id;
      assert g in c.groups;
    }
    forall id | id in PlanIds(t.plans) && id !in RemovedPlans(t, roots) ensures id in PlanIds(c.plans) {
      var p :| p in t.plans && p.id == id;
      assert p in c.plans;
    }
    forall id | id in MealIds(t.meals) && id !in RemovedMeals(t, roots) ensures id in MealIds(c.meals) {
      var m :| m in t.meals && m.id == id;
      assert m in c.meals;
    }
    forall id | id in IngredientIds(t.ingredients) && id !in RemovedIngredients(t, roots)
      ensures id in IngredientIds(c.ingredients)
    {
      var i :| i in t.ingredients && i.id == id;
      assert i in c.ingredients;
    }
    forall id | id in ListIds(t.lists) && id !in RemovedLists(t, roots) ensures id in ListIds(c.lists) {
      var l :| l in t.lists && l.id == id;
      assert l in c.lists;
    }
  }

  lemma CascadeKeepsPlansAndMeals(t: Tables, roots: Roots)
    requires Consistent(t)
    ensures var c := Cascade(t, roots);
      PlansOk(c.plans, c.groups, c.users) && MealsOk(c.meals, c.plans, c.users)
  {
    var c := Cascade(t, roots);
    var ps, ms := RemovedPlans(t, roots), RemovedMeals(t, roots);
    CascadeKeptIds(t, roots);
    FilterUniqueKeys(t.plans, (p: MealPlan) => p.id !in ps, PlanKey);
    FilterUniqueKeys(t.meals, (m: Meal) => m.id !in ms, MealKey);
  }

  lemma CascadeKeepsIngredientRows(t: Tables, roots: Roots)
    requires Consistent(t)
    ensures var c := Cascade(t, roots);
      IngredientsOk(c.ingredients, c.users) && MealIngredientsOk(c.mealIngredients, c.meals, c.ingredients)
  {
    var ms, ings := RemovedMeals(t, roots), RemovedIngredients(t, roots);
    CascadeKeptIds(t, roots);
    FilterUniqueKeys(t.ingredients, (i: Ingredient) => i.id !in ings, IngredientKey);
    var keepRow := (x: MealIngredient) => x.mealId !in ms && x.ingredientId !in ings;
    FilterUniqueKeys(t.mealIngredients, keepRow, MealIngredientKey);
    FilterUniqueKeys(t.mealIngredients, keepRow, MealIngredientPair);
  }

  lemma CascadeKeepsListRows(t: Tables, roots: Roots)
    requires Consistent(t)
    ensures var c := Cascade(t, roots);
      ListsOk(c.lists, c.plans, c.users) && ItemsOk(c.items, c.lists, c.ingredients, c.users)
  {
    var ings, ls := RemovedIngredients(t, roots), RemovedLists(t, roots);
    CascadeKeptIds(t, roots);
    FilterUniqueKeys(t.lists, (l: ShoppingList) => l.id !in ls, ListKey);
    FilterUniqueKeys(t.items, (x: ShoppingListItem) =>
      x.shoppingListId !in ls && !ByUser(roots, x.addedBy) && !(x.ingredientId.Some? && x.ingredientId.value in ings), ItemKey);
  }

  /** A cascading delete never leaves a row referencing a removed one. */
  lemma CascadeKeepsConsistent(t: Tables, roots: Roots)
    requires Consistent(t)
    ensures Consistent(Cascade(t, roots))
  {
    CascadeKeepsGroupTables(t, roots);
    CascadeKeepsPlansAndMeals(t, roots);
    CascadeKeepsIngredientRows(t, roots);
    CascadeKeepsListRows(t, roots);
  }

  /** Deleting a group removes it, its memberships, its invitations and its
      meal plans (and, by consistency, everything below them). */
  lemma DeleteGroupRemoves(t: Tables, groupId: Id)
    requires Consistent(t)
    ensures var c := DeleteGroup(t, groupId);
      && Consistent(c)
      && groupId !in GroupIds(c.groups)
      && (forall m :: m in c.members ==> m.groupId != groupId)
      && (forall i :: i in c.invitations ==> i.groupId != groupId)
      && (forall p :: p in c.plans ==> p.groupId != groupId)
  {
    var roots := Roots(None, {groupId}, {}, {});
    CascadeKeepsConsistent(t, roots);
  }

  /** Deleting a group keeps the users and the ingredients. */
  lemma DeleteGroupKeeps(t: Tables, groupId: Id)
    ensures DeleteGroup(t, groupId).users == t.users && DeleteGroup(t, groupId).ingredients == t.ingredients
  {
    var roots := Roots(None, {groupId}, {}, {});
    assert RemovedIngredients(t, roots) == {};
    FilterAll(t.users, (u: User) => !ByUser(roots, u.id));
    FilterAll(t.ingredients, (i: Ingredient) => i.id !in RemovedIngredients(t, roots));
  }

  /** Deleting a group keeps every group-side row of every other group. */
  lemma DeleteGroupKeepsRows(t: Tables, groupId: Id)
    ensures var c := DeleteGroup(t, groupId);
      && (forall g :: g in t.groups && g.id != groupId ==> g in c.groups)
      && (forall m :: m in t.members && m.groupId != groupId ==> m in c.members)
      && (forall i :: i in t.invitations && i.groupId != groupId ==> i in c.invitations)
  {
    var roots := Roots(None, {groupId}, {}, {});
    var gs := RemovedGroups(t, roots);
    assert forall id :: id in gs ==> id == groupId;
  }

  /** Deleting a group keeps the meal plans of every other group. */
  lemma DeleteGroupKeepsPlans(t: Tables, groupId: Id)
    requires UniqueKeys(t.plans, PlanKey)
    ensures forall p :: p in t.plans && p.groupId != groupId ==> p in DeleteGroup(t, groupId).plans
  {
    var roots := Roots(None, {groupId}, {}, {});
    assert RemovedGroups(t, roots) == {groupId};
    forall p | p in t.plans && p.groupId != groupId ensures p.id !in RemovedPlans(t, roots) {
      forall q | q in t.plans && q.groupId == groupId ensures q.id != p.id {
        var i :| 0 <= i < |t.plans| && t.plans[i] == p;
        var j :| 0 <= j < |t.plans| && t.plans[j] == q;
        assert i != j;
      }
    }
  }

  /** Deleting a meal plan removes it, its meals and its shopping lists. */
  lemma DeletePlanRemoves(t: Tables, planId: Id)
    requires Consistent(t)
    ensures var c := DeletePlan(t, planId);
      && Consistent(c)
      && planId !in PlanIds(c.plans)
      && (forall m :: m in c.meals ==> m.mealPlanId != planId)
      && (forall l :: l in c.lists ==> l.mealPlanId != planId)
  {
    CascadeKeepsConsistent(t, Roots(None, {}, {planId}, {}));
  }

  /** Deleting a meal plan keeps the other plans and every group-side table. */
  lemma DeletePlanKeeps(t: Tables, planId: Id)
    ensures var c := DeletePlan(t, planId);
      && c.users == t.users && c.groups == t.groups && c.members == t.members
      && c.invitations == t.invitations && c.ingredients == t.ingredients
      && (forall p :: p in t.plans && p.id != planId ==> p in c.plans)
  {
    var roots := Roots(None, {}, {planId}, {});
    assert forall id :: id in RemovedGroups(t, roots) ==> false;
    assert forall id :: id in RemovedPlans(t, roots) ==> id == planId;
    assert forall id :: id in RemovedIngredients(t, roots) ==> false;
    FilterAll(t.users, (u: User) => !ByUser(roots, u.id));
    FilterAll(t.groups, (g: Group) => g.id !in RemovedGroups(t, roots));
    FilterAll(t.members, (m: GroupMember) => m.groupId !in RemovedGroups(t, roots) && !ByUser(roots, m.userId));
    FilterAll(t.invitations, (i: GroupInvitation) =>
      i.groupId !in RemovedGroups(t, roots) && !ByUser(roots, i.invitedUserId) && !ByUser(roots, i.invitedByUserId));
    FilterAll(t.ingredients, (i: Ingredient) => i.id !in RemovedIngredients(t, roots));
  }

  /** Deleting a meal removes it and its ingredient rows. */
  lemma DeleteMealRemoves(t: Tables, mealId: Id)
    requires Consistent(t)
    ensures var c := DeleteMeal(t, mealId);
      && Consistent(c)
      && mealId !in MealIds(c.meals)
      && (forall x :: x in c.mealIngredients ==> x.mealId != mealId)
  {
    CascadeKeepsConsistent(t, Roots(None, {}, {}, {mealId}));
  }

  /** Deleting a meal keeps every other meal and every ingredient row of
      another meal. */
  lemma DeleteMealKeepsRows(t: Tables, mealId: Id)
    ensures var c := DeleteMeal(t, mealId);
      && (forall x :: x in t.mealIngredients && x.mealId != mealId ==> x in c.mealIngredients)
      && (forall m :: m in t.meals && m.id != mealId ==> m in c.meals)
  {
    var roots := Roots(None, {}, {}, {mealId});
    assert forall id :: id in RemovedGroups(t, roots) ==> false;
    assert forall id :: id in RemovedPlans(t, roots) ==> false;
    assert forall id :: id in RemovedMeals(t, roots) ==> id == mealId;
    assert forall id :: id in RemovedIngredients(t, roots) ==> false;
  }

  /** Deleting a meal changes none of the group-side tables and no meal plan. */
  lemma DeleteMealKeeps(t: Tables, mealId: Id)
    ensures var c := DeleteMeal(t, mealId);
      && c.users == t.users && c.groups == t.groups && c.members == t.members
      && c.invitations == t.invitations && c.plans == t.plans
  {
    var roots := Roots(None, {}, {}, {mealId});
    assert forall id :: id in RemovedGroups(t, roots) ==> false;
    assert forall id :: id in RemovedPlans(t, roots) ==> false;
    FilterAll(t.users, (u: User) => !ByUser(roots, u.id));
    FilterAll(t.groups, (g: Group) => g.id !in RemovedGroups(t, roots));
    FilterAll(t.members, (m: GroupMember) => m.groupId !in RemovedGroups(t, roots) && !ByUser(roots, m.userId));
    FilterAll(t.invitations, (i: GroupInvitation) =>
      i.groupId !in RemovedGroups(t, roots) && !ByUser(roots, i.invitedUserId) && !ByUser(roots, i.invitedByUserId));
    FilterAll(t.plans, (p: MealPlan) => p.id !in RemovedPlans(t, roots));
  }

  /** Deleting a meal changes no ingredient, shopping list or item. */
  lemma DeleteMealKeepsLists(t: Tables, mealId: Id)
    ensures var c := DeleteMeal(t, mealId);
      c.ingredients == t.ingredients && c.lists == t.lists && c.items == t.items
  {
    var roots := Roots(None, {}, {}, {mealId});
    assert forall id :: id in RemovedPlans(t, roots) ==> false by {
      assert forall id :: id in RemovedGroups(t, roots) ==> false;
    }
    assert forall id :: id in RemovedIngredients(t, roots) ==> false;
    assert forall id :: id in RemovedLists(t, roots) ==> false;
    FilterAll(t.ingredients, (i: Ingredient) => i.id !in RemovedIngredients(t, roots));
    FilterAll(t.lists, (l: ShoppingList) => l.id !in RemovedLists(t, roots));
    FilterAll(t.items, (x: ShoppingListItem) =>
      x.shoppingListId !in RemovedLists(t, roots) && !ByUser(roots, x.addedBy)
      && !(x.ingredientId.Some? && x.ingredientId.value in RemovedIngredients(t, roots)));
  }

  /** Deleting a user removes the user, their memberships, the invitations they
      received or sent, the groups they created, and every row they created. */
  lemma DeleteUserRemoves(t: Tables, userId: Id)
    requires Consistent(t)
    ensures var c := DeleteUser(t, userId);
      && Consistent(c)
      && userId !in UserIds(c.users)
      && (forall m :: m in c.members ==> m.userId != userId)
      && (forall i :: i in c.invitations ==> i.invitedUserId != userId && i.invitedByUserId != userId)
      && (forall g :: g in c.groups ==> g.createdBy != userId)
      && (forall p :: p in c.plans ==> p.createdBy != userId)
      && (forall m :: m in c.meals ==> m.createdBy != userId)
      && (forall i :: i in c.ingredients ==> i.createdBy != userId)
      && (forall l :: l in c.lists ==> l.createdBy != userId)
      && (forall x :: x in c.items ==> x.addedBy != userId)
  {
    CascadeKeepsConsistent(t, Roots(Some(userId), {}, {}, {}));
  }

  /** Deleting a user deletes the ingredients they created and, through the
      references of both tables, every meal-ingredient row and every
      shopping-list item that named one of them. */
  lemma DeleteUserRemovesIngredientRows(t: Tables, userId: Id)
    ensures var c := DeleteUser(t, userId);
      && (forall i :: i in c.ingredients ==> i.createdBy != userId)
      && (forall x, i :: x in c.mealIngredients && i in t.ingredients && i.createdBy == userId ==> x.ingredientId != i.id)
      && (forall x, i :: x in c.items && i in t.ingredients && i.createdBy == userId ==> x.ingredientId != Some(i.id))
  {
  }

  /* The single-table writes the procedures perform, each shown to keep the
     store consistent under the conditions the procedure has checked. */

  lemma InsertGroupOk(t: Tables, g: Group)
    requires Consistent(t)
    requires g.id !in GroupIds(t.groups) && g.createdBy in UserIds(t.users)
    ensures Consistent(t.(groups := t.groups + [g]))
  {
    var gs := t.groups + [g];
    AppendUniqueKeys(t.groups, g, GroupKey);
    forall id | id in GroupIds(t.groups) ensures id in GroupIds(gs) {
      var x :| x in t.groups && x.id == id;
      assert x in gs;
    }
  }

  lemma UpdateGroupsOk(t: Tables, gs: seq<Group>)
    requires Consistent(t)
    requires |gs| == |t.groups|
    requires forall k :: 0 <= k < |gs| ==> gs[k].id == t.groups[k].id && gs[k].createdBy == t.groups[k].createdBy
    ensures Consistent(t.(groups := gs))
  {
    forall id | id in GroupIds(t.groups) ensures id in GroupIds(gs) {
      var k :| 0 <= k < |t.groups| && t.groups[k].id == id;
      assert gs[k] in gs;
    }
    forall g | g in gs ensures g.createdBy in UserIds(t.users) {
      var k :| 0 <= k < |gs| && gs[k] == g;
      assert t.groups[k] in t.groups;
    }
    forall i, j | 0 <= i < j < |gs| ensures GroupKey(gs[i]) != GroupKey(gs[j]) {
      assert GroupKey(t.groups[i]) != GroupKey(t.groups[j]);
    }
  }

  lemma InsertMemberOk(t: Tables, m: GroupMember)
    requires Consistent(t)
    requires m.id !in MemberIds(t.members) && m.groupId in GroupIds(t.groups) && m.userId in UserIds(t.users)
    ensures Consistent(t.(members := t.members + [m]))
  {
    AppendUniqueKeys(t.members, m, MemberKey);
  }

  lemma RemoveMembersOk(t: Tables, ms: seq<GroupMember>)
    requires Consistent(t)
    requires UniqueKeys(ms, MemberKey) && forall m :: m in ms ==> m in t.members
    ensures Consistent(t.(members := ms))
  {
  }

  lemma UpdateMembersOk(t: Tables, ms: seq<GroupMember>)
    requires Consistent(t)
    requires |ms| == |t.members|
    requires forall k :: 0 <= k < |ms| ==>
      ms[k].id == t.members[k].id && ms[k].groupId == t.members[k].groupId && ms[k].userId == t.members[k].userId
    ensures Consistent(t.(members := ms))
  {
    forall m | m in ms ensures m.groupId in GroupIds(t.groups) && m.userId in UserIds(t.users) {
      var k :| 0 <= k < |ms| && ms[k] == m;
      assert t.members[k] in t.members;
    }
    forall i, j | 0 <= i < j < |ms| ensures MemberKey(ms[i]) != MemberKey(ms[j]) {
      assert MemberKey(t.members[i]) != MemberKey(t.members[j]);
    }
  }

  lemma InsertInvitationOk(t: Tables, i: GroupInvitation)
    requires Consistent(t)
    requires i.id !in InvitationIds(t.invitations)
    requires i.groupId in GroupIds(t.groups) && i.invitedUserId in UserIds(t.users) && i.invitedByUserId in UserIds(t.users)
    requires IsPending(i) ==> !HasPendingInvitation(t.invitations, i.groupId, i.invitedUserId)
    ensures Consistent(t.(invitations := t.invitations + [i]))
  {
    var s := t.invitations + [i];
    AppendUniqueKeys(t.invitations, i, InvitationKey);
    forall a, b | 0 <= a < b < |s| && IsPending(s[a]) && IsPending(s[b]) ensures InviteeKey(s[a]) != InviteeKey(s[b]) {
      if b == |s| - 1 {
        assert s[a] in t.invitations;
      } else {
        assert s[a] == t.invitations[a] && s[b] == t.invitations[b];
      }
    }
  }

  lemma UpdateInvitationsOk(t: Tables, invs: seq<GroupInvitation>)
    requires Consistent(t)
    requires |invs| == |t.invitations|
    requires forall k :: 0 <= k < |invs| ==>
      && invs[k].id == t.invitations[k].id
      && invs[k].groupId == t.invitations[k].groupId
      && invs[k].invitedUserId == t.invitations[k].invitedUserId
      && invs[k].invitedByUserId == t.invitations[k].invitedByUserId
      && (IsPending(invs[k]) ==> IsPending(t.invitations[k]))
    ensures Consistent(t.(invitations := invs))
  {
    var old_ := t.invitations;
    forall x | x in invs
      ensures x.groupId in GroupIds(t.groups) && x.invitedUserId in UserIds(t.users) && x.invitedByUserId in UserIds(t.users)
    {
      var k :| 0 <= k < |invs| && invs[k] == x;
      assert old_[k] in old_;
    }
    forall i, j | 0 <= i < j < |invs| ensures InvitationKey(invs[i]) != InvitationKey(invs[j]) {
      assert InvitationKey(old_[i]) != InvitationKey(old_[j]);
    }
    forall i, j | 0 <= i < j < |invs| && IsPending(invs[i]) && IsPending(invs[j])
      ensures InviteeKey(invs[i]) != InviteeKey(invs[j])
    {
      assert InviteeKey(old_[i]) != InviteeKey(old_[j]);
    }
  }

  lemma InsertPlanOk(t: Tables, p: MealPlan)
    requires Consistent(t)
    requires p.id !in PlanIds(t.plans) && p.groupId in GroupIds(t.groups) && p.createdBy in UserIds(t.users)
    ensures Consistent(t.(plans := t.plans + [p]))
  {
    var ps := t.plans + [p];
    AppendUniqueKeys(t.plans, p, PlanKey);
    forall id | id in PlanIds(t.plans) ensures id in PlanIds(ps) {
      var x :| x in t.plans && x.id == id;
      assert x in ps;
    }
  }

  lemma UpdatePlansOk(t: Tables, ps: seq<MealPlan>)
    requires Consistent(t)
    requires |ps| == |t.plans|
    requires forall k :: 0 <= k < |ps| ==>
      ps[k].id == t.plans[k].id && ps[k].groupId == t.plans[k].groupId && ps[k].createdBy == t.plans[k].createdBy
    ensures Consistent(t.(plans := ps))
  {
    forall id | id in PlanIds(t.plans) ensures id in PlanIds(ps) {
      var k :| 0 <= k < |t.plans| && t.plans[k].id == id;
      assert ps[k] in ps;
    }
    forall p | p in ps ensures p.groupId in GroupIds(t.groups) && p.createdBy in UserIds(t.users) {
      var k :| 0 <= k < |ps| && ps[k] == p;
      assert t.plans[k] in t.plans;
    }
    forall i, j | 0 <= i < j < |ps| ensures PlanKey(ps[i]) != PlanKey(ps[j]) {
      assert PlanKey(t.plans[i]) != PlanKey(t.plans[j]);
    }
  }

  lemma InsertMealOk(t: Tables, m: Meal)
    requires Consistent(t)
    requires m.id !in MealIds(t.meals) && m.mealPlanId in PlanIds(t.plans) && m.createdBy in UserIds(t.users)
    ensures Consistent(t.(meals := t.meals + [m]))
  {
    var ms := t.meals + [m];
    AppendUniqueKeys(t.meals, m, MealKey);
    forall id | id in MealIds(t.meals) ensures id in MealIds(ms) {
      var x :| x in t.meals && x.id == id;
      assert x in ms;
    }
  }

  lemma UpdateMealsOk(t: Tables, ms: seq<Meal>)
    requires Consistent(t)
    requires |ms| == |t.meals|
    requires forall k :: 0 <= k < |ms| ==>
      ms[k].id == t.meals[k].id && ms[k].mealPlanId == t.meals[k].mealPlanId && ms[k].createdBy == t.meals[k].createdBy
    ensures Consistent(t.(meals := ms))
  {
    forall id | id in MealIds(t.meals) ensures id in MealIds(ms) {
      var k :| 0 <= k < |t.meals| && t.meals[k].id == id;
      assert ms[k] in ms;
    }
    forall m | m in ms ensures m.mealPlanId in PlanIds(t.plans) && m.createdBy in UserIds(t.users) {
      var k :| 0 <= k < |ms| && ms[k] == m;
      assert t.meals[k] in t.meals;
    }
    forall i, j | 0 <= i < j < |ms| ensures MealKey(ms[i]) != MealKey(ms[j]) {
      assert MealKey(t.meals[i]) != MealKey(t.meals[j]);
    }
  }

  lemma InsertIngredientOk(t: Tables, i: Ingredient)
    requires Consistent(t)
    requires i.id !in IngredientIds(t.ingredients) && i.createdBy in UserIds(t.users)
    ensures Consistent(t.(ingredients := t.ingredients + [i]))
  {
    var s := t.ingredients + [i];
    AppendUniqueKeys(t.ingredients, i, IngredientKey);
    forall id | id in IngredientIds(t.ingredients) ensures id in IngredientIds(s) {
      var x :| x in t.ingredients && x.id == id;
      assert x in s;
    }
  }

  lemma UpdateIngredientsOk(t: Tables, xs: seq<Ingredient>)
    requires Consistent(t)
    requires |xs| == |t.ingredients|
    requires forall k :: 0 <= k < |xs| ==> xs[k].id == t.ingredients[k].id && xs[k].createdBy == t.ingredients[k].createdBy
    ensures Consistent(t.(ingredients := xs))
  {
    forall id | id in IngredientIds(t.ingredients) ensures id in IngredientIds(xs) {
      var k :| 0 <= k < |t.ingredients| && t.ingredients[k].id == id;
      assert xs[k] in xs;
    }
    forall i | i in xs ensures i.createdBy in UserIds(t.users) {
      var k :| 0 <= k < |xs| && xs[k] == i;
      assert t.ingredients[k] in t.ingredients;
    }
    forall i, j | 0 <= i < j < |xs| ensures IngredientKey(xs[i]) != IngredientKey(xs[j]) {
      assert IngredientKey(t.ingredients[i]) != IngredientKey(t.ingredients[j]);
    }
  }

  lemma InsertMealIngredientOk(t: Tables, x: MealIngredient)
    requires Consistent(t)
    requires x.id !in MealIngredientIds(t.mealIngredients)
    requires !HasMealIngredient(t.mealIngredients, x.mealId, x.ingredientId)
    requires x.mealId in MealIds(t.meals) && x.ingredientId in IngredientIds(t.ingredients)
    ensures Consistent(t.(mealIngredients := t.mealIngredients + [x]))
  {
    AppendUniqueKeys(t.mealIngredients, x, MealIngredientKey);
    AppendUniqueKeys(t.mealIngredients, x, MealIngredientPair);
  }

  lemma RemoveMealIngredientsOk(t: Tables, xs: seq<MealIngredient>)
    requires Consistent(t)
    requires UniqueKeys(xs, MealIngredientKey) && UniqueKeys(xs, MealIngredientPair)
    requires forall x :: x in xs ==> x in t.mealIngredients
    ensures Consistent(t.(mealIngredients := xs))
  {
  }

  lemma InsertListOk(t: Tables, l: ShoppingList)
    requires Consistent(t)
    requires l.id !in ListIds(t.lists) && l.mealPlanId in PlanIds(t.plans) && l.createdBy in UserIds(t.users)
    ensures Consistent(t.(lists := t.lists + [l]))
  {
    var s := t.lists + [l];
    AppendUniqueKeys(t.lists, l, ListKey);
    forall id | id in ListIds(t.lists) ensures id in ListIds(s) {
      var x :| x in t.lists && x.id == id;
      assert x in s;
    }
  }

  /** Items of one bulk insert: new, distinct ids and existing references. */
  ghost predicate InsertableItems(t: Tables, xs: seq<ShoppingListItem>) {
    && UniqueKeys(xs, ItemKey)
    && (forall x :: x in xs ==>
          && x.id !in ItemIds(t.items)
          && x.shoppingListId in ListIds(t.lists)
          && x.addedBy in UserIds(t.users)
          && (x.ingredientId.Some? ==> x.ingredientId.value in IngredientIds(t.ingredients)))
  }

  lemma InsertItemsOk(t: Tables, xs: seq<ShoppingListItem>)
    requires Consistent(t)
    requires InsertableItems(t, xs)
    ensures Consistent(t.(items := t.items + xs))
  {
    AppendAllUniqueKeys(t.items, xs, ItemKey);
  }

  lemma UpdateItemsOk(t: Tables, xs: seq<ShoppingListItem>)
    requires Consistent(t)
    requires |xs| == |t.items|
    requires forall k :: 0 <= k < |xs| ==>
      && xs[k].id == t.items[k].id && xs[k].shoppingListId == t.items[k].shoppingListId
      && xs[k].addedBy == t.items[k].addedBy && xs[k].ingredientId == t.items[k].ingredientId
    ensures Consistent(t.(items := xs))
  {
    forall x | x in xs
      ensures x.shoppingListId in ListIds(t.lists) && x.addedBy in UserIds(t.users)
      ensures x.ingredientId.Some? ==> x.ingredientId.value in IngredientIds(t.ingredients)
    {
      var k :| 0 <= k < |xs| && xs[k] == x;
      assert t.items[k] in t.items;
    }
    forall i, j | 0 <= i < j < |xs| ensures ItemKey(xs[i]) != ItemKey(xs[j]) {
      assert ItemKey(t.items[i]) != ItemKey(t.items[j]);
    }
  }

  lemma RemoveItemsOk(t: Tables, xs: seq<ShoppingListItem>)
    requires Consistent(t)
    requires UniqueKeys(xs, ItemKey) && forall x :: x in xs ==> x in t.items
    ensures Consistent(t.(items := xs))
  {
  }

  /** The mutable store: one sequence per table, in insertion order. */
  class Store {
    var users: seq<User>
    var groups: seq<Group>
    var members: seq<GroupMember>
    var invitations: seq<GroupInvitation>
    var plans: seq<MealPlan>
    var meals: seq<Meal>
    var ingredients: seq<Ingredient>
    var mealIngredients: seq<MealIngredient>
    var lists: seq<ShoppingList>
    var items: seq<ShoppingListItem>

    function Snapshot(): Tables
      reads this
    {
      Tables(users, groups, members, invitations, plans, meals, ingredients, mealIngredients, lists, items)
    }

    ghost predicate Valid()
      reads this
    {
      Consistent(Snapshot())
    }

    /** An empty application database over the accounts of the
        authentication library. */
    constructor (accounts: seq<User>)
      requires UniqueKeys(accounts, UserKey)
      ensures Valid()
      ensures Snapshot() == Tables(accounts, [], [], [], [], [], [], [], [], [])
    {
      users, groups, members, invitations := accounts, [], [], [];
      plans, meals, ingredients, mealIngredients, lists, items := [], [], [], [], [], [];
    }

    /** Run a DELETE on the roots and let the store cascade it. */
    method ApplyCascade(roots: Roots)
      requires Valid()
      modifies this
      ensures Valid()
      ensures Snapshot() == Cascade(old(Snapshot()), roots)
    {
      var c := Cascade(Snapshot(), roots);
      CascadeKeepsConsistent(Snapshot(), roots);
      Replace(c);
    }

    /** Overwrite every table at once. */
    method Replace(t: Tables)
      requires Consistent(t)
      modifies this
      ensures Valid() && Snapshot() == t
    {
      users, groups, members, invitations := t.users, t.groups, t.members, t.invitations;
      plans, meals, ingredients, mealIngredients, lists, items := t.plans, t.meals, t.ingredients, t.mealIngredients, t.lists, t.items;
      assert Snapshot() == t;
    }

    /* One setter per table: the write happens only once the procedure has
       shown that the store stays consistent with the new rows. */

    method SetGroups(gs: seq<Group>)
      requires Consistent(Snapshot().(groups := gs))
      modifies this`groups
      ensures groups == gs && Valid()
    {
      groups := gs;
      assert Snapshot() == old(Snapshot()).(groups := gs);
    }

    method SetMembers(ms: seq<GroupMember>)
      requires Consistent(Snapshot().(members := ms))
      modifies this`members
      ensures members == ms && Valid()
    {
      members := ms;
      assert Snapshot() == old(Snapshot()).(members := ms);
    }

    method SetInvitations(invs: seq<GroupInvitation>)
      requires Consistent(Snapshot().(invitations := invs))
      modifies this`invitations
      ensures invitations == invs && Valid()
    {
      invitations := invs;
      assert Snapshot() == old(Snapshot()).(invitations := invs);
    }

    method SetPlans(ps: seq<MealPlan>)
      requires Consistent(Snapshot().(plans := ps))
      modifies this`plans
      ensures plans == ps && Valid()
    {
      plans := ps;
      assert Snapshot() == old(Snapshot()).(plans := ps);
    }

    method SetMeals(ms: seq<Meal>)
      requires Consistent(Snapshot().(meals := ms))
      modifies this`meals
      ensures meals == ms && Valid()
    {
      meals := ms;
      assert Snapshot() == old(Snapshot()).(meals := ms);
    }

    method SetIngredients(xs: seq<Ingredient>)
      requires Consistent(Snapshot().(ingredients := xs))
      modifies this`ingredients
      ensures ingredients == xs && Valid()
    {
      ingredients := xs;
      assert Snapshot() == old(Snapshot()).(ingredients := xs);
    }

    method SetMealIngredients(xs: seq<MealIngredient>)
      requires Consistent(Snapshot().(mealIngredients := xs))
      modifies this`mealIngredients
      ensures mealIngredients == xs && Valid()
    {
      mealIngredients := xs;
      assert Snapshot() == old(Snapshot()).(mealIngredients := xs);
    }

    method SetLists(ls: seq<ShoppingList>)
      requires Consistent(Snapshot().(lists := ls))
      modifies this`lists
      ensures lists == ls && Valid()
    {
      lists := ls;
      assert Snapshot() == old(Snapshot()).(lists := ls);
    }

    method SetItems(xs: seq<ShoppingListItem>)
      requires Consistent(Snapshot().(items := xs))
      modifies this`items
      ensures items == xs && Valid()
    {
      items := xs;
      assert Snapshot() == old(Snapshot()).(items := xs);
    }
  }
}
