/** The role hierarchy and the two permission checks both routers run before
    acting: the group check reads the caller's membership row in a group, the
    meal-plan check reads the plan and then the caller's membership row in the
    plan's group. Both fail with Forbidden only. */
module Policy {
  import opened Common
  import opened GroupSchema
  import opened MealSchema

  /** The rank table: admin 3, moderator 2, member 1. */
  function Rank(role: Role): (n: nat)
    ensures 1 <= n <= 3
    ensures (n == 3 <==> role == Admin) && (n == 2 <==> role == Moderator) && (n == 1 <==> role == Member)
  {
    match role
    case Admin => 3
    case Moderator => 2
    case Member => 1
  }

  /** A role meets a requirement when its rank is at least the required rank. */
  predicate Satisfies(actual: Role, required: Role) {
    Rank(actual) >= Rank(required)
  }

  /** The first membership row of `userId` in `groupId`, provided its role
      meets `required`; otherwise Forbidden. */
  function CheckGroupPermission(members: seq<GroupMember>, userId: Id, groupId: Id, required: Role): (r: Result<GroupMember>)
    ensures r.Ok? ==> r.value in members && r.value.groupId == groupId && r.value.userId == userId
    ensures r.Ok? ==> Satisfies(r.value.role, required)
    ensures r.Err? ==> r.error == Forbidden
    ensures (forall m :: m in members ==> !(m.groupId == groupId && m.userId == userId)) ==> r.Err?
  {
    match FindMember(members, groupId, userId)
    case None => Err(Forbidden)
    case Some(m) => if Satisfies(m.role, required) then Ok(m) else Err(Forbidden)
  }

  /** With one membership row per (group, user), the check passes exactly when
      the caller has a row whose role meets the requirement. */
  lemma GroupPermissionIff(members: seq<GroupMember>, userId: Id, groupId: Id, required: Role)
    requires SingleMembership(members, groupId, userId)
    ensures CheckGroupPermission(members, userId, groupId, required).Ok? <==>
            exists m :: m in members && m.groupId == groupId && m.userId == userId && Satisfies(m.role, required)
  {
    var f := FindMember(members, groupId, userId);
    if m :| m in members && m.groupId == groupId && m.userId == userId && Satisfies(m.role, required) {
      assert f.Some? && f.value == m;
    }
  }

  /** Passing at a role means passing, with the same row, at every lower role:
      admin implies moderator implies member. */
  lemma GroupPermissionMonotone(members: seq<GroupMember>, userId: Id, groupId: Id, stronger: Role, weaker: Role)
    requires Rank(weaker) <= Rank(stronger)
    requires CheckGroupPermission(members, userId, groupId, stronger).Ok?
    ensures CheckGroupPermission(members, userId, groupId, weaker) == CheckGroupPermission(members, userId, groupId, stronger)
  {
  }

  /** The plan with this id and the caller's first membership row in the plan's
      group, provided its role meets `required`; a missing plan and a missing
      membership are both Forbidden. */
  function CheckMealPlanPermission(plans: seq<MealPlan>, members: seq<GroupMember>, userId: Id, planId: Id,
                                   required: Role): (r: Result<(MealPlan, GroupMember)>)
    ensures r.Err? ==> r.error == Forbidden
    ensures planId !in PlanIds(plans) ==> r.Err?
    ensures r.Ok? ==> r.value.0 in plans && r.value.0.id == planId
    ensures r.Ok? ==> r.value.1 in members && r.value.1.groupId == r.value.0.groupId && r.value.1.userId == userId
    ensures r.Ok? ==> Satisfies(r.value.1.role, required)
  {
    match FindPlan(plans, planId)
    case None => Err(Forbidden)
    case Some(p) =>
      match CheckGroupPermission(members, userId, p.groupId, required)
      case Err(e) => Err(e)
      case Ok(m) => Ok((p, m))
  }

  /** Access to a plan comes only from the caller's membership in the plan's
      group: with plan ids unique, the meal-plan check agrees with the group
      check on the plan's group. */
  lemma MealPlanPermissionIsGroupPermission(plans: seq<MealPlan>, members: seq<GroupMember>, userId: Id,
                                            plan: MealPlan, required: Role)
    requires UniqueKeys(plans, PlanKey)
    requires plan in plans
    ensures var r := CheckMealPlanPermission(plans, members, userId, plan.id, required);
            var g := CheckGroupPermission(members, userId, plan.groupId, required);
            r.Ok? == g.Ok? && (r.Ok? ==> r.value == (plan, g.value))
  {
    var f := FindPlan(plans, plan.id);
    var i :| 0 <= i < |plans| && plans[i] == f.value;
    var j :| 0 <= j < |plans| && plans[j] == plan;
    assert PlanKey(plans[i]) == PlanKey(plans[j]);
    assert f.value == plan;
  }
}
