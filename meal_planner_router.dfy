/** The meal-planner router: meal plans, meals, the shared ingredient catalogue,
    the ingredients of a meal, shopping lists and their items, and the
    generation of a shopping list from a plan. Every procedure is a method over
    the store (or, for the read-only ones, a function of the tables) taking the
    authenticated caller, the current time and the fresh ids it inserts. Input
    bounds come first and fail with BadRequest; a procedure that starts from a
    meal, a list or an item loads it first (NotFound) and only then checks
    access to the plan it belongs to (Forbidden). */
module MealPlannerRouter {
  import opened Common
  import opened GroupSchema
  import opened MealSchema
  import opened Database
  import opened Policy
  import opened ShoppingAggregation

  /** The default of `limit` in an ingredient listing. */
  const DefaultIngredientLimit: int := 50

  // ---------------------------------------------------------------------
  // Input bounds.

  predicate NameOk(name: string) {
    1 <= |name| <= 100
  }

  predicate OptionalNameOk(name: Option<string>) {
    name.None? || NameOk(name.value)
  }

  predicate AtLeast(o: Option<int>, n: int) {
    o.None? || o.value >= n
  }

  predicate DayOk(o: Option<int>) {
    o.None? || 0 <= o.value <= 6
  }

  predicate NonNegative(o: Option<real>) {
    o.None? || o.value >= 0.0
  }

  predicate MacrosOk(m: Macros) {
    NonNegative(m.calories) && NonNegative(m.protein) && NonNegative(m.carbs) && NonNegative(m.fat)
  }

  /** The smallest quantity of an ingredient or an item. */
  const MinQuantity: real := 0.1

  predicate PlanInputOk(name: string, description: Option<string>) {
    NameOk(name) && AtMost(description, 500)
  }

  predicate PlanPatchOk(patch: PlanPatch) {
    OptionalNameOk(patch.name) && AtMost(patch.description, 500)
  }

  /** The input of `createMeal`; `plannedDate` is the string the client sent. */
  datatype MealInput = MealInput(name: string, description: Option<string>, instructions: Option<string>,
                                 prepTime: Option<int>, cookTime: Option<int>, servings: Option<int>,
                                 mealType: Option<MealType>, dayOfWeek: Option<int>, plannedDate: Option<string>)

  predicate MealInputOk(m: MealInput) {
    && NameOk(m.name) && AtMost(m.description, 500) && AtMost(m.instructions, 2000)
    && AtLeast(m.prepTime, 0) && AtLeast(m.cookTime, 0) && AtLeast(m.servings, 1) && DayOk(m.dayOfWeek)
  }

  predicate MealPatchOk(m: MealPatch) {
    && OptionalNameOk(m.name) && AtMost(m.description, 500) && AtMost(m.instructions, 2000)
    && AtLeast(m.prepTime, 0) && AtLeast(m.cookTime, 0) && AtLeast(m.servings, 1) && DayOk(m.dayOfWeek)
  }

  /** The input of `createIngredient`. */
  datatype IngredientInput = IngredientInput(name: string, description: Option<string>, category: Option<string>,
                                             unit: Option<string>, macros: Macros)

  predicate IngredientInputOk(i: IngredientInput) {
    NameOk(i.name) && AtMost(i.description, 500) && AtMost(i.category, 50) && AtMost(i.unit, 20) && MacrosOk(i.macros)
  }

  predicate IngredientPatchOk(i: IngredientPatch) {
    && OptionalNameOk(i.name) && AtMost(i.description, 500) && AtMost(i.category, 50) && AtMost(i.unit, 20)
    && MacrosOk(i.macros)
  }

  predicate QuantityInputOk(quantity: real, unit: Option<string>, notes: Option<string>) {
    quantity >= MinQuantity && AtMost(unit, 20) && AtMost(notes, 200)
  }

  predicate IngredientLimitOk(limit: Option<int>) {
    1 <= limit.GetOr(DefaultIngredientLimit) <= 100
  }

  // ---------------------------------------------------------------------
  // Loading a meal, a list or an item, then checking the plan it belongs to.

  /** The meal with this id, provided the caller has `required` in its plan's
      group. A missing meal is NotFound whatever the caller's rights. */
  function CheckMealAccess(meals: seq<Meal>, plans: seq<MealPlan>, members: seq<GroupMember>, caller: Id,
                           mealId: Id, required: Role): (r: Result<Meal>)
    ensures mealId !in MealIds(meals) ==> r == Err(NotFound)
    ensures mealId in MealIds(meals) ==>
              (r.Err? <==> CheckMealPlanPermission(plans, members, caller, FindMeal(meals, mealId).value.mealPlanId, required).Err?)
    ensures mealId in MealIds(meals) && r.Err? ==> r.error == Forbidden
    ensures r.Ok? ==> r.value in meals && r.value.id == mealId
    ensures r.Ok? ==> exists p, m :: p in plans && p.id == r.value.mealPlanId && m in members && m.groupId == p.groupId
                                     && m.userId == caller && Satisfies(m.role, required)
  {
    match FindMeal(meals, mealId)
    case None => Err(NotFound)
    case Some(meal) =>
      match CheckMealPlanPermission(plans, members, caller, meal.mealPlanId, required)
      case Err(e) => Err(e)
      case Ok(_) => Ok(meal)
  }

  /** The list with this id, provided the caller is a member of its plan's group. */
  function CheckListAccess(lists: seq<ShoppingList>, plans: seq<MealPlan>, members: seq<GroupMember>, caller: Id,
                           listId: Id): (r: Result<ShoppingList>)
    ensures listId !in ListIds(lists) ==> r == Err(NotFound)
    ensures listId in ListIds(lists) ==>
              (r.Err? <==> CheckMealPlanPermission(plans, members, caller, FindList(lists, listId).value.mealPlanId, Member).Err?)
    ensures listId in ListIds(lists) && r.Err? ==> r.error == Forbidden
    ensures r.Ok? ==> r.value in lists && r.value.id == listId
  {
    match FindList(lists, listId)
    case None => Err(NotFound)
    case Some(l) =>
      match CheckMealPlanPermission(plans, members, caller, l.mealPlanId, Member)
      case Err(e) => Err(e)
      case Ok(_) => Ok(l)
  }

  /** The item with this id joined with its list, provided the caller is a
      member of the list's plan's group. An item without a list drops out of
      the join and is NotFound too. */
  function CheckItemAccess(items: seq<ShoppingListItem>, lists: seq<ShoppingList>, plans: seq<MealPlan>,
                           members: seq<GroupMember>, caller: Id, itemId: Id): (r: Result<(ShoppingListItem, ShoppingList)>)
    ensures itemId !in ItemIds(items) ==> r == Err(NotFound)
    ensures r.Err? ==> r.error == NotFound || r.error == Forbidden
    ensures (itemId in ItemIds(items) && FindItem(items, itemId).value.shoppingListId in ListIds(lists) && r.Err?) ==>
              r.error == Forbidden
    ensures (itemId in ItemIds(items) && FindItem(items, itemId).value.shoppingListId in ListIds(lists)) ==>
              (r.Err? <==> CheckMealPlanPermission(plans, members, caller,
                             FindList(lists, FindItem(items, itemId).value.shoppingListId).value.mealPlanId, Member).Err?)
    ensures r.Ok? ==> r.value.0 in items && r.value.0.id == itemId && r.value.0 == FindItem(items, itemId).value
    ensures r.Ok? ==> r.value.1 in lists && r.value.1.id == r.value.0.shoppingListId
  {
    match FindItem(items, itemId)
    case None => Err(NotFound)
    case Some(x) =>
      match FindList(lists, x.shoppingListId)
      case None => Err(NotFound)
      case Some(l) =>
        match CheckMealPlanPermission(plans, members, caller, l.mealPlanId, Member)
        case Err(e) => Err(e)
        case Ok(_) => Ok((x, l))
  }

  // ---------------------------------------------------------------------
  // Meal plans.

  /** `createMealPlan`: members of the group; the plan starts active. */
  method CreateMealPlan(s: Store, caller: Id, groupId: Id, name: string, description: Option<string>,
                        startDate: Option<int>, endDate: Option<int>, now: int, planId: Id)
    returns (r: Result<MealPlan>)
    requires s.Valid() && caller in UserIds(s.users)
    requires planId !in PlanIds(s.plans)
    modifies s`plans
    ensures s.Valid()
    ensures !PlanInputOk(name, description) ==> r == Err(BadRequest)
    ensures PlanInputOk(name, description) && CheckGroupPermission(old(s.members), caller, groupId, Member).Err? ==>
              r == Err(Forbidden)
    ensures r.Ok? <==> PlanInputOk(name, description) && CheckGroupPermission(old(s.members), caller, groupId, Member).Ok?
    ensures r.Err? ==> s.plans == old(s.plans)
    ensures r.Ok? ==> r.value == NewMealPlan(planId, name, description, groupId, caller, startDate, endDate, now)
                      && s.plans == old(s.plans) + [r.value]
  {
    if !PlanInputOk(name, description) {
      return Err(BadRequest);
    }
    var perm := CheckGroupPermission(s.members, caller, groupId, Member);
    if perm.Err? {
      return Err(Forbidden);
    }
    var p := NewMealPlan(planId, name, description, groupId, caller, startDate, endDate, now);
    InsertPlanOk(s.Snapshot(), p);
    s.SetPlans(s.plans + [p]);
    r := Ok(p);
  }

  /** `getMealPlansByGroup`: members of the group; the group's plans. */
  function MealPlansByGroup(plans: seq<MealPlan>, members: seq<GroupMember>, caller: Id, groupId: Id)
    : (r: Result<seq<MealPlan>>)
    ensures r.Err? <==> CheckGroupPermission(members, caller, groupId, Member).Err?
    ensures r.Err? ==> r.error == Forbidden
    ensures r.Ok? ==> forall p :: p in r.value <==> p in plans && p.groupId == groupId
  {
    if CheckGroupPermission(members, caller, groupId, Member).Err? then Err(Forbidden)
    else Ok(Filter(plans, (p: MealPlan) => p.groupId == groupId))
  }

  /** `getMealPlanById`: members of the plan's group; the plan and its meals.
      A missing plan fails the permission check, so it is Forbidden. */
  function MealPlanById(plans: seq<MealPlan>, meals: seq<Meal>, members: seq<GroupMember>, caller: Id, id: Id)
    : (r: Result<(MealPlan, seq<Meal>)>)
    ensures r.Err? <==> CheckMealPlanPermission(plans, members, caller, id, Member).Err?
    ensures r.Err? ==> r.error == Forbidden
    ensures r.Ok? ==> r.value.0 in plans && r.value.0.id == id
    ensures r.Ok? ==> forall m :: m in r.value.1 <==> m in meals && m.mealPlanId == id
  {
    match CheckMealPlanPermission(plans, members, caller, id, Member)
    case Err(e) => Err(e)
    case Ok((p, _)) => Ok((p, Filter(meals, (m: Meal) => m.mealPlanId == id)))
  }

  /** Editing one plan keeps the tables consistent. */
  lemma UpdatePlanOk(t: Tables, id: Id, patch: PlanPatch, now: int)
    requires Consistent(t)
    ensures Consistent(t.(plans := UpdatePlan(t.plans, id, patch, now)))
  {
    UpdatePlansOk(t, UpdatePlan(t.plans, id, patch, now));
  }

  /** `updateMealPlan`: moderators and admins of the plan's group. */
  method UpdateMealPlan(s: Store, caller: Id, id: Id, patch: PlanPatch, now: int) returns (r: Result<MealPlan>)
    requires s.Valid() && caller in UserIds(s.users)
    modifies s`plans
    ensures s.Valid()
    ensures !PlanPatchOk(patch) ==> r == Err(BadRequest)
    ensures PlanPatchOk(patch) && CheckMealPlanPermission(old(s.plans), old(s.members), caller, id, Moderator).Err? ==>
              r == Err(Forbidden)
    ensures r.Ok? <==> PlanPatchOk(patch) && CheckMealPlanPermission(old(s.plans), old(s.members), caller, id, Moderator).Ok?
    ensures r.Err? ==> s.plans == old(s.plans)
    ensures r.Ok? ==> FindPlan(old(s.plans), id).Some?
                      && r.value == RevisePlan(FindPlan(old(s.plans), id).value, patch, now)
                      && s.plans == UpdatePlan(old(s.plans), id, patch, now)
  {
    if !PlanPatchOk(patch) {
      return Err(BadRequest);
    }
    var perm := CheckMealPlanPermission(s.plans, s.members, caller, id, Moderator);
    if perm.Err? {
      return Err(Forbidden);
    }
    var f := FindPlan(s.plans, id);
    var ps := UpdatePlan(s.plans, id, patch, now);
    UpdatePlanOk(s.Snapshot(), id, patch, now);
    s.SetPlans(ps);
    r := Ok(RevisePlan(f.value, patch, now));
  }

  /** `deleteMealPlan`: admins of the plan's group; the store cascades to the
      plan's meals, their ingredient rows, and its lists and their items. */
  method DeleteMealPlan(s: Store, caller: Id, id: Id) returns (r: Result<()>)
    requires s.Valid() && caller in UserIds(s.users)
    modifies s
    ensures s.Valid()
    ensures r.Err? <==> CheckMealPlanPermission(old(s.plans), old(s.members), caller, id, Admin).Err?
    ensures r.Err? ==> r.error == Forbidden && s.Snapshot() == old(s.Snapshot())
    ensures r.Ok? ==> s.Snapshot() == DeletePlan(old(s.Snapshot()), id)
  {
    var perm := CheckMealPlanPermission(s.plans, s.members, caller, id, Admin);
    if perm.Err? {
      return Err(Forbidden);
    }
    s.ApplyCascade(Roots(None, {}, {id}, {}));
    r := Ok(());
  }

  // ---------------------------------------------------------------------
  // Meals.

  /** The meal row `createMeal` inserts: an empty `plannedDate` string counts
      as absent, any other is parsed. */
  function NewMeal(id: Id, planId: Id, input: MealInput, parseDate: string -> int, caller: Id, now: int): (m: Meal)
    ensures m.id == id && m.mealPlanId == planId && m.createdBy == caller && m.name == input.name
    ensures m.plannedDate.None? <==> input.plannedDate.None? || input.plannedDate.value == ""
    ensures m.plannedDate.Some? ==> m.plannedDate.value == parseDate(input.plannedDate.value)
  {
    var planned := if input.plannedDate.Some? && input.plannedDate.value != "" then Some(parseDate(input.plannedDate.value))
                   else None;
    Meal(id, planId, input.name, input.description, input.instructions, input.prepTime, input.cookTime,
         input.servings, input.mealType, input.dayOfWeek, planned, caller, now, now)
  }

  /** `createMeal`: members of the plan's group. */
  method CreateMeal(s: Store, caller: Id, planId: Id, input: MealInput, parseDate: string -> int, now: int, mealId: Id)
    returns (r: Result<Meal>)
    requires s.Valid() && caller in UserIds(s.users)
    requires mealId !in MealIds(s.meals)
    modifies s`meals
    ensures s.Valid()
    ensures !MealInputOk(input) ==> r == Err(BadRequest)
    ensures MealInputOk(input) && CheckMealPlanPermission(old(s.plans), old(s.members), caller, planId, Member).Err? ==>
              r == Err(Forbidden)
    ensures r.Ok? <==> MealInputOk(input) && CheckMealPlanPermission(old(s.plans), old(s.members), caller, planId, Member).Ok?
    ensures r.Err? ==> s.meals == old(s.meals)
    ensures r.Ok? ==> r.value == NewMeal(mealId, planId, input, parseDate, caller, now) && s.meals == old(s.meals) + [r.value]
  {
    if !MealInputOk(input) {
      return Err(BadRequest);
    }
    var perm := CheckMealPlanPermission(s.plans, s.members, caller, planId, Member);
    if perm.Err? {
      return Err(Forbidden);
    }
    var m := NewMeal(mealId, planId, input, parseDate, caller, now);
    InsertMealOk(s.Snapshot(), m);
    s.SetMeals(s.meals + [m]);
    r := Ok(m);
  }

  /** The ingredient rows of a meal joined with their ingredients, in table
      order; a row whose ingredient is missing drops out of the inner join. */
  function MealIngredientsOf(rows: seq<MealIngredient>, ingredients: seq<Ingredient>, mealId: Id)
    : (r: seq<(MealIngredient, Ingredient)>)
    ensures |r| <= |rows|
    ensures forall e :: e in r ==> e.0 in rows && e.0.mealId == mealId && e.1 in ingredients && e.1.id == e.0.ingredientId
    decreases |rows|
  {
    if rows == [] then []
    else
      var x := rows[0];
      var i := FindIngredient(ingredients, x.ingredientId);
      var head := if x.mealId == mealId && i.Some? then [(x, i.value)] else [];
      assert forall y :: y in rows[1..] ==> y in rows;
      head + MealIngredientsOf(rows[1..], ingredients, mealId)
  }

  /** Every ingredient row of the meal whose ingredient exists is listed. */
  lemma {:induction false} MealIngredientsOfComplete(rows: seq<MealIngredient>, ingredients: seq<Ingredient>,
                                                     mealId: Id, x: MealIngredient)
    requires x in rows && x.mealId == mealId && x.ingredientId in IngredientIds(ingredients)
    ensures exists i :: i in ingredients && (x, i) in MealIngredientsOf(rows, ingredients, mealId)
    decreases |rows|
  {
    var f := FindIngredient(ingredients, rows[0].ingredientId);
    var head := if rows[0].mealId == mealId && f.Some? then [(rows[0], f.value)] else [];
    assert MealIngredientsOf(rows, ingredients, mealId) == head + MealIngredientsOf(rows[1..], ingredients, mealId);
    if rows[0] == x {
      assert (x, f.value) in head;
    } else {
      MealIngredientsOfComplete(rows[1..], ingredients, mealId, x);
    }
  }

  /** `getMealById`: NotFound first, then members of the meal's plan's group;
      the meal and its ingredients. */
  function MealById(meals: seq<Meal>, rows: seq<MealIngredient>, ingredients: seq<Ingredient>, plans: seq<MealPlan>,
                    members: seq<GroupMember>, caller: Id, id: Id): (r: Result<(Meal, seq<(MealIngredient, Ingredient)>)>)
    ensures id !in MealIds(meals) ==> r == Err(NotFound)
    ensures r.Err? <==> CheckMealAccess(meals, plans, members, caller, id, Member).Err?
    ensures id in MealIds(meals) && r.Err? ==> r == Err(Forbidden)
    ensures r.Ok? ==> r.value.0 in meals && r.value.0.id == id
    ensures r.Ok? ==> forall e :: e in r.value.1 ==> e.0 in rows && e.0.mealId == id && e.1 in ingredients
  {
    match CheckMealAccess(meals, plans, members, caller, id, Member)
    case Err(e) => Err(e)
    case Ok(m) => Ok((m, MealIngredientsOf(rows, ingredients, id)))
  }

  /** Editing one meal keeps the tables consistent. */
  lemma UpdateMealOk(t: Tables, id: Id, patch: MealPatch, now: int)
    requires Consistent(t)
    ensures Consistent(t.(meals := MealSchema.UpdateMeal(t.meals, id, patch, now)))
  {
    UpdateMealsOk(t, MealSchema.UpdateMeal(t.meals, id, patch, now));
  }

  /** `updateMeal`: NotFound first, then moderators and admins of the plan
      the stored meal belongs to. The meal never moves to another plan. */
  method UpdateMeal(s: Store, caller: Id, id: Id, patch: MealPatch, now: int) returns (r: Result<Meal>)
    requires s.Valid() && caller in UserIds(s.users)
    modifies s`meals
    ensures s.Valid()
    ensures !MealPatchOk(patch) ==> r == Err(BadRequest)
    ensures MealPatchOk(patch) && CheckMealAccess(old(s.meals), old(s.plans), old(s.members), caller, id, Moderator).Err? ==>
              r == CheckMealAccess(old(s.meals), old(s.plans), old(s.members), caller, id, Moderator)
    ensures r.Ok? <==> MealPatchOk(patch) && CheckMealAccess(old(s.meals), old(s.plans), old(s.members), caller, id, Moderator).Ok?
    ensures r.Err? ==> s.meals == old(s.meals)
    ensures r.Ok? ==> r.value == ReviseMeal(FindMeal(old(s.meals), id).value, patch, now)
                      && s.meals == MealSchema.UpdateMeal(old(s.meals), id, patch, now)
  {
    if !MealPatchOk(patch) {
      return Err(BadRequest);
    }
    var access := CheckMealAccess(s.meals, s.plans, s.members, caller, id, Moderator);
    if access.Err? {
      return access;
    }
    var ms := MealSchema.UpdateMeal(s.meals, id, patch, now);
    UpdateMealOk(s.Snapshot(), id, patch, now);
    s.SetMeals(ms);
    r := Ok(ReviseMeal(access.value, patch, now));
  }

  /** `deleteMeal`: NotFound first, then moderators and admins of the meal's
      plan; the store cascades to the meal's ingredient rows. */
  method DeleteMeal(s: Store, caller: Id, id: Id) returns (r: Result<()>)
    requires s.Valid() && caller in UserIds(s.users)
    modifies s
    ensures s.Valid()
    ensures id !in MealIds(old(s.meals)) ==> r == Err(NotFound)
    ensures r.Err? <==> CheckMealAccess(old(s.meals), old(s.plans), old(s.members), caller, id, Moderator).Err?
    ensures id in MealIds(old(s.meals)) && r.Err? ==> r == Err(Forbidden)
    ensures r.Err? ==> s.Snapshot() == old(s.Snapshot())
    ensures r.Ok? ==> s.Snapshot() == Database.DeleteMeal(old(s.Snapshot()), id)
  {
    var access := CheckMealAccess(s.meals, s.plans, s.members, caller, id, Moderator);
    if access.Err? {
      return Err(access.error);
    }
    s.ApplyCascade(Roots(None, {}, {}, {id}));
    r := Ok(());
  }

  // ---------------------------------------------------------------------
  // Ingredients: a catalogue shared by all users.

  /** `createIngredient`: any signed-in user; no group is involved. */
  method CreateIngredient(s: Store, caller: Id, input: IngredientInput, now: int, ingredientId: Id)
    returns (r: Result<Ingredient>)
    requires s.Valid() && caller in UserIds(s.users)
    requires ingredientId !in IngredientIds(s.ingredients)
    modifies s`ingredients
    ensures s.Valid()
    ensures r.Err? <==> !IngredientInputOk(input)
    ensures r.Err? ==> r.error == BadRequest && s.ingredients == old(s.ingredients)
    ensures r.Ok? ==> r.value == Ingredient(ingredientId, input.name, input.description, input.category, input.unit,
                                            input.macros, caller, now, now)
                      && s.ingredients == old(s.ingredients) + [r.value]
  {
    if !IngredientInputOk(input) {
      return Err(BadRequest);
    }
    var i := Ingredient(ingredientId, input.name, input.description, input.category, input.unit, input.macros,
                        caller, now, now);
    InsertIngredientOk(s.Snapshot(), i);
    s.SetIngredients(s.ingredients + [i]);
    r := Ok(i);
  }

  /** The filter of `getIngredients`: an absent or empty search or category
      does not filter; a category matches only a row with that category. */
  predicate IngredientMatches(i: Ingredient, search: Option<string>, category: Option<string>) {
    && (search.None? || search.value == "" || Contains(i.name, search.value))
    && (category.None? || category.value == "" || i.category == category)
  }

  /** `getIngredients`: at most `limit` matching ingredients. No permission
      is checked. */
  function Ingredients(ingredients: seq<Ingredient>, search: Option<string>, category: Option<string>, limit: Option<int>)
    : (r: Result<seq<Ingredient>>)
    ensures r.Err? <==> !IngredientLimitOk(limit)
    ensures r.Err? ==> r.error == BadRequest
    ensures r.Ok? ==> |r.value| <= limit.GetOr(DefaultIngredientLimit)
    ensures r.Ok? ==> forall i :: i in r.value ==> i in ingredients && IngredientMatches(i, search, category)
    ensures r.Ok? ==> forall i :: (i in ingredients && IngredientMatches(i, search, category)
                                   && |r.value| < limit.GetOr(DefaultIngredientLimit)) ==> i in r.value
  {
    if !IngredientLimitOk(limit) then Err(BadRequest)
    else
      var matching := Filter(ingredients, (i: Ingredient) => IngredientMatches(i, search, category));
      Ok(Take(matching, limit.GetOr(DefaultIngredientLimit)))
  }

  /** Editing one ingredient keeps the tables consistent. */
  lemma UpdateIngredientOk(t: Tables, id: Id, patch: IngredientPatch, now: int)
    requires Consistent(t)
    ensures Consistent(t.(ingredients := MealSchema.UpdateIngredient(t.ingredients, id, patch, now)))
  {
    UpdateIngredientsOk(t, MealSchema.UpdateIngredient(t.ingredients, id, patch, now));
  }

  /** `updateIngredient`: NotFound first, then only the ingredient's creator. */
  method UpdateIngredient(s: Store, caller: Id, id: Id, patch: IngredientPatch, now: int) returns (r: Result<Ingredient>)
    requires s.Valid() && caller in UserIds(s.users)
    modifies s`ingredients
    ensures s.Valid()
    ensures !IngredientPatchOk(patch) ==> r == Err(BadRequest)
    ensures IngredientPatchOk(patch) && id !in IngredientIds(old(s.ingredients)) ==> r == Err(NotFound)
    ensures (IngredientPatchOk(patch) && id in IngredientIds(old(s.ingredients))
             && FindIngredient(old(s.ingredients), id).value.createdBy != caller) ==> r == Err(Forbidden)
    ensures r.Ok? <==> IngredientPatchOk(patch) && id in IngredientIds(old(s.ingredients))
                       && FindIngredient(old(s.ingredients), id).value.createdBy == caller
    ensures r.Err? ==> s.ingredients == old(s.ingredients)
    ensures r.Ok? ==> r.value == ReviseIngredient(FindIngredient(old(s.ingredients), id).value, patch, now)
                      && s.ingredients == MealSchema.UpdateIngredient(old(s.ingredients), id, patch, now)
  {
    if !IngredientPatchOk(patch) {
      return Err(BadRequest);
    }
    var f := FindIngredient(s.ingredients, id);
    if f.None? {
      return Err(NotFound);
    }
    if f.value.createdBy != caller {
      return Err(Forbidden);
    }
    var xs := MealSchema.UpdateIngredient(s.ingredients, id, patch, now);
    UpdateIngredientOk(s.Snapshot(), id, patch, now);
    s.SetIngredients(xs);
    r := Ok(ReviseIngredient(f.value, patch, now));
  }

  // ---------------------------------------------------------------------
  // The ingredients of a meal.

  /** `addMealIngredient`: NotFound first, then members of the meal's plan;
      an ingredient already in the meal is a Conflict, and an ingredient id
      that names no ingredient fails the table's reference (Internal). */
  method AddMealIngredient(s: Store, caller: Id, mealId: Id, ingredientId: Id, quantity: real, unit: Option<string>,
                           notes: Option<string>, now: int, rowId: Id) returns (r: Result<MealIngredient>)
    requires s.Valid() && caller in UserIds(s.users)
    requires rowId !in MealIngredientIds(s.mealIngredients)
    modifies s`mealIngredients
    ensures s.Valid()
    ensures !QuantityInputOk(quantity, unit, notes) ==> r == Err(BadRequest)
    ensures QuantityInputOk(quantity, unit, notes) && mealId !in MealIds(old(s.meals)) ==> r == Err(NotFound)
    ensures (QuantityInputOk(quantity, unit, notes) && mealId in MealIds(old(s.meals))
             && CheckMealAccess(old(s.meals), old(s.plans), old(s.members), caller, mealId, Member).Err?) ==> r == Err(Forbidden)
    ensures (QuantityInputOk(quantity, unit, notes)
             && CheckMealAccess(old(s.meals), old(s.plans), old(s.members), caller, mealId, Member).Ok?
             && HasMealIngredient(old(s.mealIngredients), mealId, ingredientId)) ==> r == Err(Conflict)
    ensures r.Ok? <==> && QuantityInputOk(quantity, unit, notes)
                       && CheckMealAccess(old(s.meals), old(s.plans), old(s.members), caller, mealId, Member).Ok?
                       && !HasMealIngredient(old(s.mealIngredients), mealId, ingredientId)
                       && ingredientId in IngredientIds(s.ingredients)
    ensures r.Err? ==> s.mealIngredients == old(s.mealIngredients)
    ensures r.Ok? ==> r.value == MealIngredient(rowId, mealId, ingredientId, quantity, unit, notes, now)
                      && s.mealIngredients == old(s.mealIngredients) + [r.value]
  {
    if !QuantityInputOk(quantity, unit, notes) {
      return Err(BadRequest);
    }
    var access := CheckMealAccess(s.meals, s.plans, s.members, caller, mealId, Member);
    if access.Err? {
      return Err(access.error);
    }
    if HasMealIngredient(s.mealIngredients, mealId, ingredientId) {
      return Err(Conflict);
    }
    if ingredientId !in IngredientIds(s.ingredients) {
      return Err(Internal);
    }
    var x := MealIngredient(rowId, mealId, ingredientId, quantity, unit, notes, now);
    InsertMealIngredientOk(s.Snapshot(), x);
    s.SetMealIngredients(s.mealIngredients + [x]);
    r := Ok(x);
  }

  /** `removeMealIngredient`: NotFound first, then members of the meal's plan;
      succeeds whether or not the meal listed the ingredient. */
  method RemoveMealIngredient(s: Store, caller: Id, mealId: Id, ingredientId: Id) returns (r: Result<()>)
    requires s.Valid() && caller in UserIds(s.users)
    modifies s`mealIngredients
    ensures s.Valid()
    ensures mealId !in MealIds(old(s.meals)) ==> r == Err(NotFound)
    ensures r.Err? <==> CheckMealAccess(old(s.meals), old(s.plans), old(s.members), caller, mealId, Member).Err?
    ensures mealId in MealIds(old(s.meals)) && r.Err? ==> r == Err(Forbidden)
    ensures r.Err? ==> s.mealIngredients == old(s.mealIngredients)
    ensures r.Ok? ==> s.mealIngredients == WithoutPair(old(s.mealIngredients), mealId, ingredientId)
  {
    var access := CheckMealAccess(s.meals, s.plans, s.members, caller, mealId, Member);
    if access.Err? {
      return Err(access.error);
    }
    var xs := WithoutPair(s.mealIngredients, mealId, ingredientId);
    WithoutPairKeys(s.mealIngredients, mealId, ingredientId);
    RemoveMealIngredientsOk(s.Snapshot(), xs);
    s.SetMealIngredients(xs);
    r := Ok(());
  }

  // ---------------------------------------------------------------------
  // Shopping lists and items.

  /** `createShoppingList`: members of the plan's group; the list starts open. */
  method CreateShoppingList(s: Store, caller: Id, planId: Id, name: string, now: int, listId: Id)
    returns (r: Result<ShoppingList>)
    requires s.Valid() && caller in UserIds(s.users)
    requires listId !in ListIds(s.lists)
    modifies s`lists
    ensures s.Valid()
    ensures !NameOk(name) ==> r == Err(BadRequest)
    ensures NameOk(name) && CheckMealPlanPermission(old(s.plans), old(s.members), caller, planId, Member).Err? ==>
              r == Err(Forbidden)
    ensures r.Ok? <==> NameOk(name) && CheckMealPlanPermission(old(s.plans), old(s.members), caller, planId, Member).Ok?
    ensures r.Err? ==> s.lists == old(s.lists)
    ensures r.Ok? ==> r.value == NewShoppingList(listId, planId, name, caller, now) && s.lists == old(s.lists) + [r.value]
  {
    if !NameOk(name) {
      return Err(BadRequest);
    }
    var perm := CheckMealPlanPermission(s.plans, s.members, caller, planId, Member);
    if perm.Err? {
      return Err(Forbidden);
    }
    var l := NewShoppingList(listId, planId, name, caller, now);
    InsertListOk(s.Snapshot(), l);
    s.SetLists(s.lists + [l]);
    r := Ok(l);
  }

  /** `getShoppingListsByMealPlan`: members of the plan's group; its lists. */
  function ShoppingListsByMealPlan(lists: seq<ShoppingList>, plans: seq<MealPlan>, members: seq<GroupMember>,
                                   caller: Id, planId: Id): (r: Result<seq<ShoppingList>>)
    ensures r.Err? <==> CheckMealPlanPermission(plans, members, caller, planId, Member).Err?
    ensures r.Err? ==> r.error == Forbidden
    ensures r.Ok? ==> forall l :: l in r.value <==> l in lists && l.mealPlanId == planId
  {
    if CheckMealPlanPermission(plans, members, caller, planId, Member).Err? then Err(Forbidden)
    else Ok(Filter(lists, (l: ShoppingList) => l.mealPlanId == planId))
  }

  /** `getShoppingListById`: NotFound first, then members of the list's
      plan's group; the list and its items. */
  function ShoppingListById(lists: seq<ShoppingList>, items: seq<ShoppingListItem>, plans: seq<MealPlan>,
                            members: seq<GroupMember>, caller: Id, id: Id): (r: Result<(ShoppingList, seq<ShoppingListItem>)>)
    ensures id !in ListIds(lists) ==> r == Err(NotFound)
    ensures r.Err? <==> CheckListAccess(lists, plans, members, caller, id).Err?
    ensures id in ListIds(lists) && r.Err? ==> r == Err(Forbidden)
    ensures r.Ok? ==> r.value.0 in lists && r.value.0.id == id
    ensures r.Ok? ==> forall x :: x in r.value.1 <==> x in items && x.shoppingListId == id
  {
    match CheckListAccess(lists, plans, members, caller, id)
    case Err(e) => Err(e)
    case Ok(l) => Ok((l, Filter(items, (x: ShoppingListItem) => x.shoppingListId == id)))
  }

  /** Appending one item whose references resolve keeps the tables consistent. */
  lemma AddItemOk(t: Tables, x: ShoppingListItem)
    requires Consistent(t)
    requires x.id !in ItemIds(t.items) && x.shoppingListId in ListIds(t.lists) && x.addedBy in UserIds(t.users)
    requires x.ingredientId.Some? ==> x.ingredientId.value in IngredientIds(t.ingredients)
    ensures Consistent(t.(items := t.items + [x]))
  {
    assert InsertableItems(t, [x]);
    InsertItemsOk(t, [x]);
  }

  /** `addShoppingListItem`: NotFound first, then members of the list's plan's
      group; an ingredient id that names no ingredient fails the table's
      reference (Internal). The same ingredient may be added twice. */
  method AddShoppingListItem(s: Store, caller: Id, listId: Id, ingredientId: Option<Id>, name: string, quantity: real,
                             unit: Option<string>, notes: Option<string>, now: int, itemId: Id)
    returns (r: Result<ShoppingListItem>)
    requires s.Valid() && caller in UserIds(s.users)
    requires itemId !in ItemIds(s.items)
    modifies s`items
    ensures s.Valid()
    ensures !(NameOk(name) && QuantityInputOk(quantity, unit, notes)) ==> r == Err(BadRequest)
    ensures NameOk(name) && QuantityInputOk(quantity, unit, notes) && listId !in ListIds(old(s.lists)) ==> r == Err(NotFound)
    ensures (NameOk(name) && QuantityInputOk(quantity, unit, notes) && listId in ListIds(old(s.lists))
             && CheckListAccess(old(s.lists), old(s.plans), old(s.members), caller, listId).Err?) ==> r == Err(Forbidden)
    ensures r.Ok? <==> && NameOk(name) && QuantityInputOk(quantity, unit, notes)
                       && CheckListAccess(old(s.lists), old(s.plans), old(s.members), caller, listId).Ok?
                       && (ingredientId.Some? ==> ingredientId.value in IngredientIds(s.ingredients))
    ensures r.Err? ==> s.items == old(s.items)
    ensures r.Ok? ==> r.value == NewItem(itemId, listId, ingredientId, name, quantity, unit, notes, caller, now)
                      && s.items == old(s.items) + [r.value]
  {
    if !(NameOk(name) && QuantityInputOk(quantity, unit, notes)) {
      return Err(BadRequest);
    }
    var access := CheckListAccess(s.lists, s.plans, s.members, caller, listId);
    if access.Err? {
      return Err(access.error);
    }
    if ingredientId.Some? && ingredientId.value !in IngredientIds(s.ingredients) {
      return Err(Internal);
    }
    var x := NewItem(itemId, listId, ingredientId, name, quantity, unit, notes, caller, now);
    AddItemOk(s.Snapshot(), x);
    s.SetItems(s.items + [x]);
    r := Ok(x);
  }

  /** The UPDATE of `toggleShoppingListItem`: the item with this id takes the
      negation of the completion flag of the (first) row with that id. */
  function Toggle(items: seq<ShoppingListItem>, id: Id, now: int): seq<ShoppingListItem>
    requires id in ItemIds(items)
  {
    SetCompleted(items, id, !FindItem(items, id).value.isCompleted, now)
  }

  /** A toggle negates the item's flag and changes no other row. */
  lemma ToggleNegates(items: seq<ShoppingListItem>, id: Id, now: int)
    requires UniqueKeys(items, ItemKey) && id in ItemIds(items)
    ensures |Toggle(items, id, now)| == |items|
    ensures forall k :: 0 <= k < |items| && items[k].id == id ==>
              Toggle(items, id, now)[k] == items[k].(isCompleted := !items[k].isCompleted, updatedAt := now)
    ensures forall k :: 0 <= k < |items| && items[k].id != id ==> Toggle(items, id, now)[k] == items[k]
    ensures forall k :: 0 <= k < |items| ==> Toggle(items, id, now)[k].id == items[k].id
  {
    var x := FindItem(items, id).value;
    forall k | 0 <= k < |items| && items[k].id == id ensures items[k] == x {
      var j :| 0 <= j < |items| && items[j] == x;
      assert ItemKey(items[j]) == ItemKey(items[k]);
    }
  }

  /** A toggle keeps the item ids. */
  lemma ToggleKeepsIds(items: seq<ShoppingListItem>, id: Id, now: int)
    requires UniqueKeys(items, ItemKey) && id in ItemIds(items)
    ensures UniqueKeys(Toggle(items, id, now), ItemKey) && id in ItemIds(Toggle(items, id, now))
  {
    SetCompletedKeys(items, id, !FindItem(items, id).value.isCompleted, now);
    var once := Toggle(items, id, now);
    var k0 :| 0 <= k0 < |items| && items[k0].id == id;
    assert once[k0].id == id && once[k0] in once;
  }

  /** Toggling twice restores every row's completion flag; only the item's
      `updatedAt` moves. */
  lemma ToggleTwice(items: seq<ShoppingListItem>, id: Id, t1: int, t2: int)
    requires UniqueKeys(items, ItemKey) && id in ItemIds(items)
    ensures id in ItemIds(Toggle(items, id, t1))
    ensures |Toggle(Toggle(items, id, t1), id, t2)| == |items|
    ensures forall k :: 0 <= k < |items| ==>
      Toggle(Toggle(items, id, t1), id, t2)[k] == if items[k].id == id then items[k].(updatedAt := t2) else items[k]
  {
    ToggleNegates(items, id, t1);
    ToggleKeepsIds(items, id, t1);
    var once := Toggle(items, id, t1);
    ToggleNegates(once, id, t2);
    var twice := Toggle(once, id, t2);
    forall k | 0 <= k < |items|
      ensures twice[k] == if items[k].id == id then items[k].(updatedAt := t2) else items[k]
    {
      assert once[k].id == items[k].id;
    }
  }

  /** A toggle keeps the store consistent. */
  lemma ToggleOk(t: Tables, id: Id, now: int)
    requires Consistent(t) && id in ItemIds(t.items)
    ensures Consistent(t.(items := Toggle(t.items, id, now)))
  {
    var xs := Toggle(t.items, id, now);
    ToggleNegates(t.items, id, now);
    UpdateItemsOk(t, xs);
  }

  /** `toggleShoppingListItem`: NotFound first, then members of the item's
      list's plan's group; the item's completion flag is negated. */
  method ToggleShoppingListItem(s: Store, caller: Id, id: Id, now: int) returns (r: Result<ShoppingListItem>)
    requires s.Valid() && caller in UserIds(s.users)
    modifies s`items
    ensures s.Valid()
    ensures id !in ItemIds(old(s.items)) ==> r == Err(NotFound)
    ensures r.Err? <==> CheckItemAccess(old(s.items), old(s.lists), old(s.plans), old(s.members), caller, id).Err?
    ensures id in ItemIds(old(s.items)) && r.Err? ==> r == Err(Forbidden)
    ensures r.Err? ==> s.items == old(s.items)
    ensures r.Ok? ==> id in ItemIds(old(s.items))
                      && r.value == FindItem(old(s.items), id).value.(isCompleted := !FindItem(old(s.items), id).value.isCompleted,
                                                                      updatedAt := now)
                      && s.items == Toggle(old(s.items), id, now)
  {
    var access := CheckItemAccess(s.items, s.lists, s.plans, s.members, caller, id);
    if access.Err? {
      return Err(access.error);
    }
    var x := access.value.0;
    var xs := Toggle(s.items, id, now);
    ToggleOk(s.Snapshot(), id, now);
    s.SetItems(xs);
    r := Ok(x.(isCompleted := !x.isCompleted, updatedAt := now));
  }

  /** `deleteShoppingListItem`: NotFound first, then members of the item's
      list's plan's group. */
  method DeleteShoppingListItem(s: Store, caller: Id, id: Id) returns (r: Result<()>)
    requires s.Valid() && caller in UserIds(s.users)
    modifies s`items
    ensures s.Valid()
    ensures id !in ItemIds(old(s.items)) ==> r == Err(NotFound)
    ensures r.Err? <==> CheckItemAccess(old(s.items), old(s.lists), old(s.plans), old(s.members), caller, id).Err?
    ensures id in ItemIds(old(s.items)) && r.Err? ==> r == Err(Forbidden)
    ensures r.Err? ==> s.items == old(s.items)
    ensures r.Ok? ==> s.items == WithoutItem(old(s.items), id)
  {
    var access := CheckItemAccess(s.items, s.lists, s.plans, s.members, caller, id);
    if access.Err? {
      return Err(access.error);
    }
    var xs := WithoutItem(s.items, id);
    WithoutItemKeys(s.items, id);
    RemoveItemsOk(s.Snapshot(), xs);
    s.SetItems(xs);
    r := Ok(());
  }

  // ---------------------------------------------------------------------
  // Shopping-list generation.

  /** The joined rows of a plan: each ingredient row of a meal of the plan,
      with its ingredient's name, in table order. Rows whose meal or
      ingredient is missing drop out of the inner joins. */
  function PlanRows(rows: seq<MealIngredient>, meals: seq<Meal>, ingredients: seq<Ingredient>, planId: Id)
    : (r: seq<Entry>)
    ensures |r| <= |rows|
    ensures forall e :: e in r ==> e.ingredientId in IngredientIds(ingredients)
    ensures forall e :: e in r ==> exists x :: x in rows && x.ingredientId == e.ingredientId && x.quantity == e.quantity
                                               && x.unit == e.unit && x.mealId in MealIds(meals)
                                               && FindMeal(meals, x.mealId).value.mealPlanId == planId
    decreases |rows|
  {
    if rows == [] then []
    else
      var x := rows[0];
      var m := FindMeal(meals, x.mealId);
      var i := FindIngredient(ingredients, x.ingredientId);
      var head := if m.Some? && m.value.mealPlanId == planId && i.Some?
                  then [Entry(x.ingredientId, i.value.name, x.quantity, x.unit)] else [];
      assert forall y :: y in rows[1..] ==> y in rows;
      head + PlanRows(rows[1..], meals, ingredients, planId)
  }

  /** Every ingredient row of a meal of the plan whose ingredient exists
      contributes its entry. */
  lemma {:induction false} PlanRowsComplete(rows: seq<MealIngredient>, meals: seq<Meal>, ingredients: seq<Ingredient>,
                                            planId: Id, x: MealIngredient)
    requires x in rows && x.mealId in MealIds(meals) && FindMeal(meals, x.mealId).value.mealPlanId == planId
    requires x.ingredientId in IngredientIds(ingredients)
    ensures Entry(x.ingredientId, FindIngredient(ingredients, x.ingredientId).value.name, x.quantity, x.unit)
            in PlanRows(rows, meals, ingredients, planId)
    decreases |rows|
  {
    var m := FindMeal(meals, rows[0].mealId);
    var i := FindIngredient(ingredients, rows[0].ingredientId);
    var head := if m.Some? && m.value.mealPlanId == planId && i.Some?
                then [Entry(rows[0].ingredientId, i.value.name, rows[0].quantity, rows[0].unit)] else [];
    assert PlanRows(rows, meals, ingredients, planId) == head + PlanRows(rows[1..], meals, ingredients, planId);
    if rows[0] != x {
      PlanRowsComplete(rows[1..], meals, ingredients, planId, x);
    }
  }

  /** The items inserted for the aggregated entries: one per entry, in
      entry order, with the entry's ingredient, name, quantity and unit. */
  function GeneratedItems(lines: seq<Entry>, ids: seq<Id>, listId: Id, caller: Id, now: int): seq<ShoppingListItem>
    requires |ids| >= |lines|
  {
    seq(|lines|, i requires 0 <= i < |lines| =>
      NewItem(ids[i], listId, Some(lines[i].ingredientId), lines[i].name, lines[i].quantity, lines[i].unit, None, caller, now))
  }

  /** What the generated list holds: one open item per distinct ingredient of
      the rows, in first-occurrence order, each with the summed quantity and
      the name and unit of the ingredient's first row. */
  lemma GeneratedItemsMeaning(rows: seq<Entry>, ids: seq<Id>, listId: Id, caller: Id, now: int)
    requires |ids| >= |rows|
    ensures |Aggregate(rows)| <= |rows|
    ensures var xs := GeneratedItems(Aggregate(rows), ids, listId, caller, now);
      && (forall i :: 0 <= i < |xs| ==>
            && xs[i].id == ids[i] && xs[i].shoppingListId == listId && xs[i].addedBy == caller && !xs[i].isCompleted
            && xs[i].notes.None?
            && xs[i].ingredientId.Some?
            && FirstIndex(rows, xs[i].ingredientId.value) < |rows|
            && xs[i].name == rows[FirstIndex(rows, xs[i].ingredientId.value)].name
            && xs[i].unit == rows[FirstIndex(rows, xs[i].ingredientId.value)].unit
            && xs[i].quantity == SumFor(rows, xs[i].ingredientId.value))
      && (forall i, j :: 0 <= i < j < |xs| ==>
            xs[i].ingredientId != xs[j].ingredientId
            && FirstIndex(rows, xs[i].ingredientId.value) < FirstIndex(rows, xs[j].ingredientId.value))
      && (forall k :: k in IdsOf(rows) <==> exists i :: 0 <= i < |xs| && xs[i].ingredientId == Some(k))
  {
    AggregateSize(rows);
    AggregateEntries(rows);
    AggregateDistinct(rows);
    AggregateOrder(rows);
    AggregateCovers(rows);
    var lines := Aggregate(rows);
    var xs := GeneratedItems(lines, ids, listId, caller, now);
    forall k | k in IdsOf(rows) ensures exists i :: 0 <= i < |xs| && xs[i].ingredientId == Some(k) {
      var i :| 0 <= i < |lines| && lines[i].ingredientId == k;
      assert xs[i].ingredientId == Some(k);
    }
  }

  /** The generated items may be inserted: fresh distinct ids, the new list,
      and ingredients that exist. */
  lemma GeneratedItemsInsertable(t: Tables, rows: seq<Entry>, ids: seq<Id>, listId: Id, caller: Id, now: int)
    requires |ids| >= |rows|
    requires forall i, j :: 0 <= i < j < |ids| ==> ids[i] != ids[j]
    requires forall i :: 0 <= i < |ids| ==> ids[i] !in ItemIds(t.items)
    requires listId in ListIds(t.lists) && caller in UserIds(t.users)
    requires forall e :: e in rows ==> e.ingredientId in IngredientIds(t.ingredients)
    ensures |Aggregate(rows)| <= |rows|
    ensures InsertableItems(t, GeneratedItems(Aggregate(rows), ids, listId, caller, now))
  {
    AggregateSize(rows);
    AggregateCovers(rows);
    var lines := Aggregate(rows);
    var xs := GeneratedItems(lines, ids, listId, caller, now);
    forall x | x in xs ensures x.ingredientId.Some? && x.ingredientId.value in IngredientIds(t.ingredients) {
      var i :| 0 <= i < |xs| && xs[i] == x;
      var k := lines[i].ingredientId;
      assert k in IdsOf(rows);
      var e :| e in rows && e.ingredientId == k;
    }
    assert UniqueKeys(xs, ItemKey) by {
      forall i, j | 0 <= i < j < |xs| ensures ItemKey(xs[i]) != ItemKey(xs[j]) {
        assert xs[i].id == ids[i] && xs[j].id == ids[j];
      }
    }
  }

  /** `generateShoppingList`: members of the plan's group. A new list is
      always created, even when the plan has no ingredients, and holds one
      item per distinct ingredient of the plan's meals. */
  method GenerateShoppingList(s: Store, caller: Id, planId: Id, name: string, now: int, listId: Id, itemIds: seq<Id>)
    returns (r: Result<ShoppingList>)
    requires s.Valid() && caller in UserIds(s.users)
    requires listId !in ListIds(s.lists)
    requires |itemIds| >= |s.mealIngredients|
    requires forall i, j :: 0 <= i < j < |itemIds| ==> itemIds[i] != itemIds[j]
    requires forall i :: 0 <= i < |itemIds| ==> itemIds[i] !in ItemIds(s.items)
    modifies s`lists, s`items
    ensures s.Valid()
    ensures r.Err? <==> CheckMealPlanPermission(old(s.plans), old(s.members), caller, planId, Member).Err?
    ensures r.Err? ==> r.error == Forbidden && s.lists == old(s.lists) && s.items == old(s.items)
    ensures r.Ok? ==> r.value == NewShoppingList(listId, planId, name, caller, now) && s.lists == old(s.lists) + [r.value]
    ensures r.Ok? ==>
              var rows := PlanRows(old(s.mealIngredients), old(s.meals), old(s.ingredients), planId);
              |Aggregate(rows)| <= |itemIds| && s.items == old(s.items) + GeneratedItems(Aggregate(rows), itemIds, listId, caller, now)
  {
    var perm := CheckMealPlanPermission(s.plans, s.members, caller, planId, Member);
    if perm.Err? {
      return Err(Forbidden);
    }
    var rows := PlanRows(s.mealIngredients, s.meals, s.ingredients, planId);
    var lines := GroupIngredients(rows);
    var l := NewShoppingList(listId, planId, name, caller, now);
    InsertListOk(s.Snapshot(), l);
    s.SetLists(s.lists + [l]);
    GeneratedItemsInsertable(s.Snapshot(), rows, itemIds, listId, caller, now);
    var xs := GeneratedItems(lines, itemIds, listId, caller, now);
    InsertItemsOk(s.Snapshot(), xs);
    s.SetItems(s.items + xs);
    r := Ok(l);
  }
}
