/** The tables `meal_plan`, `meal`, `ingredient`, `meal_ingredient`,
    `shopping_list` and `shopping_list_item`: their rows, enumerated columns,
    defaults and declared references. */
module MealSchema {
  import opened Common
  import opened GroupSchema

  datatype MealType = Breakfast | Lunch | Dinner | Snack

  datatype MealPlan = MealPlan(
    id: Id,
    name: string,
    description: Option<string>,
    groupId: Id,
    createdBy: Id,
    startDate: Option<int>,
    endDate: Option<int>,
    isActive: bool,
    createdAt: int,
    updatedAt: int)

  datatype Meal = Meal(
    id: Id,
    mealPlanId: Id,
    name: string,
    description: Option<string>,
    instructions: Option<string>,
    prepTime: Option<int>,
    cookTime: Option<int>,
    servings: Option<int>,
    mealType: Option<MealType>,
    dayOfWeek: Option<int>,
    plannedDate: Option<int>,
    createdBy: Id,
    createdAt: int,
    updatedAt: int)

  /** The four per-unit macro columns (`real` in the table). */
  datatype Macros = Macros(calories: Option<real>, protein: Option<real>, carbs: Option<real>, fat: Option<real>)

  datatype Ingredient = Ingredient(
    id: Id,
    name: string,
    description: Option<string>,
    category: Option<string>,
    unit: Option<string>,
    macros: Macros,
    createdBy: Id,
    createdAt: int,
    updatedAt: int)

  /** A quantity of an ingredient in a meal; `ingredientId` is required. */
  datatype MealIngredient = MealIngredient(
    id: Id,
    mealId: Id,
    ingredientId: Id,
    quantity: real,
    unit: Option<string>,
    notes: Option<string>,
    createdAt: int)

  datatype ShoppingList = ShoppingList(
    id: Id,
    mealPlanId: Id,
    name: string,
    createdBy: Id,
    isCompleted: bool,
    createdAt: int,
    updatedAt: int)

  /** An item of a list; `ingredientId` is optional, so an item can be free text. */
  datatype ShoppingListItem = ShoppingListItem(
    id: Id,
    shoppingListId: Id,
    ingredientId: Option<Id>,
    name: string,
    quantity: real,
    unit: Option<string>,
    isCompleted: bool,
    notes: Option<string>,
    addedBy: Id,
    createdAt: int,
    updatedAt: int)

  /** A meal plan as inserted: `isActive` is left to its default. */
  function NewMealPlan(id: Id, name: string, description: Option<string>, groupId: Id, createdBy: Id,
                       startDate: Option<int>, endDate: Option<int>, now: int): (p: MealPlan)
    ensures p.isActive
  {
    MealPlan(id, name, description, groupId, createdBy, startDate, endDate, true, now, now)
  }

  /** A shopping list as inserted: `isCompleted` is left to its default. */
  function NewShoppingList(id: Id, mealPlanId: Id, name: string, createdBy: Id, now: int): (l: ShoppingList)
    ensures !l.isCompleted
  {
    ShoppingList(id, mealPlanId, name, createdBy, false, now, now)
  }

  /** A shopping-list item as inserted: `isCompleted` is left to its default. */
  function NewItem(id: Id, shoppingListId: Id, ingredientId: Option<Id>, name: string, quantity: real,
                   unit: Option<string>, notes: Option<string>, addedBy: Id, now: int): (x: ShoppingListItem)
    ensures !x.isCompleted
  {
    ShoppingListItem(id, shoppingListId, ingredientId, name, quantity, unit, false, notes, addedBy, now, now)
  }

  function PlanKey(p: MealPlan): Id { p.id }
  function MealKey(m: Meal): Id { m.id }
  function IngredientKey(i: Ingredient): Id { i.id }
  function MealIngredientKey(x: MealIngredient): Id { x.id }
  function ListKey(l: ShoppingList): Id { l.id }
  function ItemKey(x: ShoppingListItem): Id { x.id }

  /** The pair the router keeps unique in `meal_ingredient`. */
  function MealIngredientPair(x: MealIngredient): (Id, Id) { (x.mealId, x.ingredientId) }

  function PlanIds(plans: seq<MealPlan>): set<Id> { set p | p in plans :: p.id }
  function MealIds(meals: seq<Meal>): set<Id> { set m | m in meals :: m.id }
  function IngredientIds(ingredients: seq<Ingredient>): set<Id> { set i | i in ingredients :: i.id }
  function MealIngredientIds(rows: seq<MealIngredient>): set<Id> { set x | x in rows :: x.id }
  function ListIds(lists: seq<ShoppingList>): set<Id> { set l | l in lists :: l.id }
  function ItemIds(items: seq<ShoppingListItem>): set<Id> { set x | x in items :: x.id }

  ghost predicate PlansOk(plans: seq<MealPlan>, groups: seq<Group>, users: seq<User>) {
    && UniqueKeys(plans, PlanKey)
    && (forall p :: p in plans ==> p.groupId in GroupIds(groups) && p.createdBy in UserIds(users))
  }

  ghost predicate MealsOk(meals: seq<Meal>, plans: seq<MealPlan>, users: seq<User>) {
    && UniqueKeys(meals, MealKey)
    && (forall m :: m in meals ==> m.mealPlanId in PlanIds(plans) && m.createdBy in UserIds(users))
  }

  ghost predicate IngredientsOk(ingredients: seq<Ingredient>, users: seq<User>) {
    && UniqueKeys(ingredients, IngredientKey)
    && (forall i :: i in ingredients ==> i.createdBy in UserIds(users))
  }

  /** Primary key, both references, and no ingredient twice in one meal. */
  ghost predicate MealIngredientsOk(rows: seq<MealIngredient>, meals: seq<Meal>, ingredients: seq<Ingredient>) {
    && UniqueKeys(rows, MealIngredientKey)
    && UniqueKeys(rows, MealIngredientPair)
    && (forall x :: x in rows ==> x.mealId in MealIds(meals) && x.ingredientId in IngredientIds(ingredients))
  }

  ghost predicate ListsOk(lists: seq<ShoppingList>, plans: seq<MealPlan>, users: seq<User>) {
    && UniqueKeys(lists, ListKey)
    && (forall l :: l in lists ==> l.mealPlanId in PlanIds(plans) && l.createdBy in UserIds(users))
  }

  /** The optional `ingredientId` references an ingredient when it is set. */
  ghost predicate ItemsOk(items: seq<ShoppingListItem>, lists: seq<ShoppingList>,
                          ingredients: seq<Ingredient>, users: seq<User>) {
    && UniqueKeys(items, ItemKey)
    && (forall x :: x in items ==>
          && x.shoppingListId in ListIds(lists)
          && x.addedBy in UserIds(users)
          && (x.ingredientId.Some? ==> x.ingredientId.value in IngredientIds(ingredients)))
  }

  function FindPlan(plans: seq<MealPlan>, id: Id): (r: Option<MealPlan>)
    ensures r.Some? ==> r.value in plans && r.value.id == id
    ensures r.None? <==> id !in PlanIds(plans)
  {
    Find(plans, (p: MealPlan) => p.id == id)
  }

  function FindMeal(meals: seq<Meal>, id: Id): (r: Option<Meal>)
    ensures r.Some? ==> r.value in meals && r.value.id == id
    ensures r.None? <==> id !in MealIds(meals)
  {
    Find(meals, (m: Meal) => m.id == id)
  }

  function FindIngredient(ingredients: seq<Ingredient>, id: Id): (r: Option<Ingredient>)
    ensures r.Some? ==> r.value in ingredients && r.value.id == id
    ensures r.None? <==> id !in IngredientIds(ingredients)
  {
    Find(ingredients, (i: Ingredient) => i.id == id)
  }

  function FindList(lists: seq<ShoppingList>, id: Id): (r: Option<ShoppingList>)
    ensures r.Some? ==> r.value in lists && r.value.id == id
    ensures r.None? <==> id !in ListIds(lists)
  {
    Find(lists, (l: ShoppingList) => l.id == id)
  }

  function FindItem(items: seq<ShoppingListItem>, id: Id): (r: Option<ShoppingListItem>)
    ensures r.Some? ==> r.value in items && r.value.id == id
    ensures r.None? <==> id !in ItemIds(items)
  {
    Find(items, (x: ShoppingListItem) => x.id == id)
  }

  /** Whether the meal already lists the ingredient. */
  predicate HasMealIngredient(rows: seq<MealIngredient>, mealId: Id, ingredientId: Id) {
    Find(rows, (x: MealIngredient) => x.mealId == mealId && x.ingredientId == ingredientId).Some?
  }

  /** The fields an update of a meal plan may set; `None` leaves a field as it is. */
  datatype PlanPatch = PlanPatch(name: Option<string>, description: Option<string>, startDate: Option<int>,
                                 endDate: Option<int>, isActive: Option<bool>)

  /** The row an UPDATE of a meal plan writes. */
  function RevisePlan(p: MealPlan, patch: PlanPatch, now: int): (r: MealPlan)
    ensures r.id == p.id && r.groupId == p.groupId && r.createdBy == p.createdBy && r.createdAt == p.createdAt
    ensures r.updatedAt == now
    ensures patch.name.None? ==> r.name == p.name
    ensures patch.isActive.None? ==> r.isActive == p.isActive
    ensures patch.isActive.Some? ==> r.isActive == patch.isActive.value
    ensures patch.name.Some? ==> r.name == patch.name.value
    ensures patch.description.None? ==> r.description == p.description
    ensures patch.description.Some? ==> r.description == patch.description
    ensures patch.startDate.None? ==> r.startDate == p.startDate
    ensures patch.startDate.Some? ==> r.startDate == patch.startDate
    ensures patch.endDate.None? ==> r.endDate == p.endDate
    ensures patch.endDate.Some? ==> r.endDate == patch.endDate
    ensures patch == PlanPatch(None, None, None, None, None) ==> r == p.(updatedAt := now)
  {
    p.(name := Patch(patch.name, p.name), description := PatchNullable(patch.description, p.description),
       startDate := PatchNullable(patch.startDate, p.startDate), endDate := PatchNullable(patch.endDate, p.endDate),
       isActive := Patch(patch.isActive, p.isActive), updatedAt := now)
  }

  /** UPDATE the meal plan with this id. */
  function UpdatePlan(plans: seq<MealPlan>, id: Id, patch: PlanPatch, now: int): (r: seq<MealPlan>)
    ensures |r| == |plans|
    ensures forall k :: 0 <= k < |plans| ==> r[k] == if plans[k].id == id then RevisePlan(plans[k], patch, now) else plans[k]
  {
    UpdateWhere(plans, (p: MealPlan) => p.id == id, (p: MealPlan) => RevisePlan(p, patch, now))
  }

  /** The fields an update of a meal may set. */
  datatype MealPatch = MealPatch(name: Option<string>, description: Option<string>, instructions: Option<string>,
                                 prepTime: Option<int>, cookTime: Option<int>, servings: Option<int>,
                                 mealType: Option<MealType>, dayOfWeek: Option<int>, plannedDate: Option<int>)

  /** The row an UPDATE of a meal writes: it never moves the meal to another plan. */
  function ReviseMeal(m: Meal, patch: MealPatch, now: int): (r: Meal)
    ensures r.id == m.id && r.mealPlanId == m.mealPlanId && r.createdBy == m.createdBy && r.createdAt == m.createdAt
    ensures r.updatedAt == now
    ensures patch.name.None? ==> r.name == m.name
    ensures patch.name.Some? ==> r.name == patch.name.value
    ensures patch.description.None? ==> r.description == m.description
    ensures patch.description.Some? ==> r.description == patch.description
    ensures patch.instructions.None? ==> r.instructions == m.instructions
    ensures patch.instructions.Some? ==> r.instructions == patch.instructions
    ensures patch.prepTime.None? ==> r.prepTime == m.prepTime
    ensures patch.prepTime.Some? ==> r.prepTime == patch.prepTime
    ensures patch.cookTime.None? ==> r.cookTime == m.cookTime
    ensures patch.cookTime.Some? ==> r.cookTime == patch.cookTime
    ensures patch.servings.None? ==> r.servings == m.servings
    ensures patch.servings.Some? ==> r.servings == patch.servings
    ensures patch.mealType.None? ==> r.mealType == m.mealType
    ensures patch.mealType.Some? ==> r.mealType == patch.mealType
    ensures patch.dayOfWeek.None? ==> r.dayOfWeek == m.dayOfWeek
    ensures patch.dayOfWeek.Some? ==> r.dayOfWeek == patch.dayOfWeek
    ensures patch.plannedDate.None? ==> r.plannedDate == m.plannedDate
    ensures patch.plannedDate.Some? ==> r.plannedDate == patch.plannedDate
    ensures patch == MealPatch(None, None, None, None, None, None, None, None, None) ==> r == m.(updatedAt := now)
  {
    m.(name := Patch(patch.name, m.name), description := PatchNullable(patch.description, m.description),
       instructions := PatchNullable(patch.instructions, m.instructions),
       prepTime := PatchNullable(patch.prepTime, m.prepTime), cookTime := PatchNullable(patch.cookTime, m.cookTime),
       servings := PatchNullable(patch.servings, m.servings), mealType := PatchNullable(patch.mealType, m.mealType),
       dayOfWeek := PatchNullable(patch.dayOfWeek, m.dayOfWeek),
       plannedDate := PatchNullable(patch.plannedDate, m.plannedDate), updatedAt := now)
  }

  /** UPDATE the meal with this id. */
  function UpdateMeal(meals: seq<Meal>, id: Id, patch: MealPatch, now: int): (r: seq<Meal>)
    ensures |r| == |meals|
    ensures forall k :: 0 <= k < |meals| ==> r[k] == if meals[k].id == id then ReviseMeal(meals[k], patch, now) else meals[k]
  {
    UpdateWhere(meals, (m: Meal) => m.id == id, (m: Meal) => ReviseMeal(m, patch, now))
  }

  /** The fields an update of an ingredient may set. */
  datatype IngredientPatch = IngredientPatch(name: Option<string>, description: Option<string>, category: Option<string>,
                                             unit: Option<string>, macros: Macros)

  function ReviseMacros(m: Macros, patch: Macros): Macros {
    Macros(PatchNullable(patch.calories, m.calories), PatchNullable(patch.protein, m.protein),
           PatchNullable(patch.carbs, m.carbs), PatchNullable(patch.fat, m.fat))
  }

  /** The row an UPDATE of an ingredient writes: the creator never changes. */
  function ReviseIngredient(i: Ingredient, patch: IngredientPatch, now: int): (r: Ingredient)
    ensures r.id == i.id && r.createdBy == i.createdBy && r.createdAt == i.createdAt && r.updatedAt == now
    ensures patch.name.None? ==> r.name == i.name
    ensures patch.name.Some? ==> r.name == patch.name.value
    ensures patch.description.None? ==> r.description == i.description
    ensures patch.description.Some? ==> r.description == patch.description
    ensures patch.category.None? ==> r.category == i.category
    ensures patch.category.Some? ==> r.category == patch.category
    ensures patch.unit.None? ==> r.unit == i.unit
    ensures patch.unit.Some? ==> r.unit == patch.unit
    ensures patch.macros.calories.None? ==> r.macros.calories == i.macros.calories
    ensures patch.macros.calories.Some? ==> r.macros.calories == patch.macros.calories
    ensures patch.macros.protein.None? ==> r.macros.protein == i.macros.protein
    ensures patch.macros.protein.Some? ==> r.macros.protein == patch.macros.protein
    ensures patch.macros.carbs.None? ==> r.macros.carbs == i.macros.carbs
    ensures patch.macros.carbs.Some? ==> r.macros.carbs == patch.macros.carbs
    ensures patch.macros.fat.None? ==> r.macros.fat == i.macros.fat
    ensures patch.macros.fat.Some? ==> r.macros.fat == patch.macros.fat
    ensures patch == IngredientPatch(None, None, None, None, Macros(None, None, None, None)) ==> r == i.(updatedAt := now)
  {
    i.(name := Patch(patch.name, i.name), description := PatchNullable(patch.description, i.description),
       category := PatchNullable(patch.category, i.category), unit := PatchNullable(patch.unit, i.unit),
       macros := ReviseMacros(i.macros, patch.macros), updatedAt := now)
  }

  /** UPDATE the ingredient with this id. */
  function UpdateIngredient(ingredients: seq<Ingredient>, id: Id, patch: IngredientPatch, now: int): (r: seq<Ingredient>)
    ensures |r| == |ingredients|
    ensures forall k :: 0 <= k < |ingredients| ==>
      r[k] == if ingredients[k].id == id then ReviseIngredient(ingredients[k], patch, now) else ingredients[k]
  {
    UpdateWhere(ingredients, (i: Ingredient) => i.id == id, (i: Ingredient) => ReviseIngredient(i, patch, now))
  }

  /** DELETE the rows of this (meal, ingredient) pair. */
  function WithoutPair(rows: seq<MealIngredient>, mealId: Id, ingredientId: Id): (r: seq<MealIngredient>)
    ensures forall x :: x in r <==> x in rows && !(x.mealId == mealId && x.ingredientId == ingredientId)
  {
    Filter(rows, (x: MealIngredient) => !(x.mealId == mealId && x.ingredientId == ingredientId))
  }

  lemma WithoutPairKeys(rows: seq<MealIngredient>, mealId: Id, ingredientId: Id)
    requires UniqueKeys(rows, MealIngredientKey) && UniqueKeys(rows, MealIngredientPair)
    ensures UniqueKeys(WithoutPair(rows, mealId, ingredientId), MealIngredientKey)
    ensures UniqueKeys(WithoutPair(rows, mealId, ingredientId), MealIngredientPair)
  {
    FilterUniqueKeys(rows, (x: MealIngredient) => !(x.mealId == mealId && x.ingredientId == ingredientId), MealIngredientKey);
    FilterUniqueKeys(rows, (x: MealIngredient) => !(x.mealId == mealId && x.ingredientId == ingredientId), MealIngredientPair);
  }

  /** UPDATE `isCompleted` of the item with this id. */
  function SetCompleted(items: seq<ShoppingListItem>, id: Id, value: bool, now: int): (r: seq<ShoppingListItem>)
    ensures |r| == |items|
    ensures forall k :: 0 <= k < |items| ==>
      r[k] == if items[k].id == id then items[k].(isCompleted := value, updatedAt := now) else items[k]
  {
    UpdateWhere(items, (x: ShoppingListItem) => x.id == id, (x: ShoppingListItem) => x.(isCompleted := value, updatedAt := now))
  }

  lemma SetCompletedKeys(items: seq<ShoppingListItem>, id: Id, value: bool, now: int)
    requires UniqueKeys(items, ItemKey)
    ensures UniqueKeys(SetCompleted(items, id, value, now), ItemKey)
  {
    UpdateUniqueKeys(items, (x: ShoppingListItem) => x.id == id,
                     (x: ShoppingListItem) => x.(isCompleted := value, updatedAt := now), ItemKey);
  }

  /** DELETE the item with this id. */
  function WithoutItem(items: seq<ShoppingListItem>, id: Id): (r: seq<ShoppingListItem>)
    ensures forall x :: x in r <==> x in items && x.id != id
  {
    Filter(items, (x: ShoppingListItem) => x.id != id)
  }

  lemma WithoutItemKeys(items: seq<ShoppingListItem>, id: Id)
    requires UniqueKeys(items, ItemKey)
    ensures UniqueKeys(WithoutItem(items, id), ItemKey)
  {
    FilterUniqueKeys(items, (x: ShoppingListItem) => x.id != id, ItemKey);
  }
}
