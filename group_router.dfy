/** The group router: group lifecycle, membership, and the invitation state
    machine (pending, then accepted, declined or expired). Every procedure is
    a method over the store taking the authenticated caller, the current time
    and the fresh ids it inserts; the input bounds are checked first, as the
    input schemas are, and fail with BadRequest. */
module GroupRouter {
  import opened Common
  import opened GroupSchema
  import opened Database
  import opened Policy

  /** A day of the clock: `now` and `expiresAt` are in milliseconds. */
  const DayMillis: int := 86_400_000

  /** The default of `expiresInDays`. */
  const DefaultExpiryDays: int := 7

  /** The default of `limit` in a user search. */
  const DefaultSearchLimit: int := 10

  predicate CreateGroupInputOk(name: string, description: Option<string>) {
    1 <= |name| <= 100 && AtMost(description, 500)
  }

  predicate UpdateGroupInputOk(name: Option<string>, description: Option<string>) {
    (name.None? || 1 <= |name.value| <= 100) && AtMost(description, 500)
  }

  predicate CreateInvitationInputOk(message: Option<string>, expiresInDays: Option<int>) {
    AtMost(message, 500) && 1 <= expiresInDays.GetOr(DefaultExpiryDays) <= 30
  }

  predicate SearchInputOk(query: string, limit: Option<int>) {
    |query| >= 1 && 1 <= limit.GetOr(DefaultSearchLimit) <= 50
  }

  // ---------------------------------------------------------------------
  // Sole-admin guards: what the admin counts before a demotion or removal do
  // and do not guarantee.

  /** With unique row ids and one row for `u`, two admin rows mean an admin
      row that is not `u`'s. */
  lemma AnotherAdmin(members: seq<GroupMember>, groupId: Id, u: Id)
    requires UniqueKeys(members, MemberKey) && SingleMembership(members, groupId, u)
    requires AdminCount(members, groupId) >= 2
    ensures exists a :: a in members && a.groupId == groupId && a.role == Admin && a.userId != u
  {
    var ad := Admins(members, groupId);
    FilterUniqueKeys(members, (m: GroupMember) => m.groupId == groupId && m.role == Admin, MemberKey);
    assert ad[0] in ad && ad[1] in ad;
    assert MemberKey(ad[0]) != MemberKey(ad[1]);
    if ad[0].userId == u {
      assert ad[1].userId != u;
    }
  }

  /** Removing the rows of a user with no admin row removes no admin: the
      group's admins are exactly what they were. */
  lemma NonAdminRemovalKeepsAdmins(members: seq<GroupMember>, groupId: Id, u: Id)
    requires SingleMembership(members, groupId, u)
    requires FindMember(members, groupId, u).None? || FindMember(members, groupId, u).value.role != Admin
    ensures Admins(WithoutMembership(members, groupId, u), groupId) == Admins(members, groupId)
  {
    var keep := (m: GroupMember) => !(m.groupId == groupId && m.userId == u);
    var isAdmin := (m: GroupMember) => m.groupId == groupId && m.role == Admin;
    assert forall x :: x in members && isAdmin(x) ==> keep(x);
    FilterNarrower(members, keep, isAdmin);
  }

  /** The guard of `leave` and of `removeMember` on another user: when the
      target has one row and the guard lets the removal through, a group that
      had an admin still has one. */
  lemma GuardedRemovalKeepsAdmin(members: seq<GroupMember>, groupId: Id, u: Id)
    requires UniqueKeys(members, MemberKey) && SingleMembership(members, groupId, u)
    requires AdminCount(members, groupId) >= 1
    requires var f := FindMember(members, groupId, u);
      !(f.Some? && f.value.role == Admin && AdminCount(members, groupId) == 1)
    ensures AdminCount(WithoutMembership(members, groupId, u), groupId) >= 1
  {
    var f := FindMember(members, groupId, u);
    if f.Some? && f.value.role == Admin {
      AnotherAdmin(members, groupId, u);
      var a :| a in members && a.groupId == groupId && a.role == Admin && a.userId != u;
      assert a in Admins(WithoutMembership(members, groupId, u), groupId);
    } else {
      NonAdminRemovalKeepsAdmins(members, groupId, u);
    }
  }

  /** The guard of `updateMemberRole` on the caller's own row: an admin who is
      not the only admin keeps the group administered whatever role they take. */
  lemma SelfDemotionKeepsAdmin(members: seq<GroupMember>, groupId: Id, u: Id, role: Role, now: int)
    requires UniqueKeys(members, MemberKey) && SingleMembership(members, groupId, u)
    requires FindMember(members, groupId, u).Some? && FindMember(members, groupId, u).value.role == Admin
    requires AdminCount(members, groupId) != 1
    ensures AdminCount(SetRole(members, groupId, u, role, now), groupId) >= 1
  {
    assert FindMember(members, groupId, u).value in Admins(members, groupId);
    AnotherAdmin(members, groupId, u);
    var a :| a in members && a.groupId == groupId && a.role == Admin && a.userId != u;
    var after := SetRole(members, groupId, u, role, now);
    var k :| 0 <= k < |members| && members[k] == a;
    assert after[k] == a;
    assert a in Admins(after, groupId);
  }

  /** An admin changing another member's role is still an admin afterwards. */
  lemma OtherDemotionKeepsAdmin(members: seq<GroupMember>, groupId: Id, caller: Id, target: Id, role: Role, now: int)
    requires FindMember(members, groupId, caller).Some? && FindMember(members, groupId, caller).value.role == Admin
    requires caller != target
    ensures AdminCount(SetRole(members, groupId, target, role, now), groupId) >= 1
  {
    var a := FindMember(members, groupId, caller).value;
    var after := SetRole(members, groupId, target, role, now);
    var k :| 0 <= k < |members| && members[k] == a;
    assert after[k] == a;
    assert a in Admins(after, groupId);
  }

  /** The sole-admin guard of `updateMemberRole`, both cases together: an
      admin's role change that the guard lets through leaves an admin, once
      the caller has one row. */
  lemma RoleChangeKeepsAdmin(members: seq<GroupMember>, groupId: Id, caller: Id, userId: Id, role: Role, now: int)
    requires UniqueKeys(members, MemberKey)
    requires FindMember(members, groupId, caller).Some? && FindMember(members, groupId, caller).value.role == Admin
    requires !(userId == caller && AdminCount(members, groupId) == 1)
    ensures (userId != caller || SingleMembership(members, groupId, caller)) ==>
              AdminCount(SetRole(members, groupId, userId, role, now), groupId) >= 1
  {
    if userId != caller {
      OtherDemotionKeepsAdmin(members, groupId, caller, userId, role, now);
    } else if SingleMembership(members, groupId, caller) {
      SelfDemotionKeepsAdmin(members, groupId, caller, role, now);
    }
  }

  /** What `removeMember` lets through when the caller removes themselves:
      the only admin leaves a group with no admin at all. */
  lemma SelfRemovalOrphansGroup(members: seq<GroupMember>, groupId: Id, u: Id)
    requires FindMember(members, groupId, u).Some? && FindMember(members, groupId, u).value.role == Admin
    requires AdminCount(members, groupId) == 1
    ensures AdminCount(WithoutMembership(members, groupId, u), groupId) == 0
  {
    var me := FindMember(members, groupId, u).value;
    var ad := Admins(members, groupId);
    assert me in ad;
    var rest := WithoutMembership(members, groupId, u);
    forall y | y in rest ensures !(y.groupId == groupId && y.role == Admin) {
      assert y != me;
      assert y !in ad;
    }
    FilterNone(rest, (m: GroupMember) => m.groupId == groupId && m.role == Admin);
  }

  /** What accepting an invitation lets through: a user who already has a row
      in the group gets a second one. */
  lemma AcceptDuplicatesMembership(members: seq<GroupMember>, groupId: Id, u: Id, row: GroupMember)
    requires FindMember(members, groupId, u).Some?
    requires row.groupId == groupId && row.userId == u && row.id !in MemberIds(members)
    ensures !SingleMembership(members + [row], groupId, u)
  {
    var existing := FindMember(members, groupId, u).value;
    assert existing.id in MemberIds(members);
    assert existing in members + [row] && row in members + [row];
    assert existing != row;
  }

  // ---------------------------------------------------------------------
  // Groups and memberships.

  /** `create`: a new group, and the caller as its admin. */
  method Create(s: Store, caller: Id, name: string, description: Option<string>, now: int,
                groupId: Id, memberId: Id) returns (r: Result<Group>)
    requires s.Valid() && caller in UserIds(s.users)
    requires groupId !in GroupIds(s.groups) && memberId !in MemberIds(s.members)
    modifies s`groups, s`members
    ensures s.Valid()
    ensures r.Err? <==> !CreateGroupInputOk(name, description)
    ensures r.Err? ==> r.error == BadRequest && s.groups == old(s.groups) && s.members == old(s.members)
    ensures r.Ok? ==> r.value == Group(groupId, name, description, now, now, caller)
    ensures r.Ok? ==> s.groups == old(s.groups) + [r.value]
    ensures r.Ok? ==> s.members == old(s.members) + [GroupMember(memberId, groupId, caller, Admin, now, now)]
  {
    if !CreateGroupInputOk(name, description) {
      return Err(BadRequest);
    }
    var g := Group(groupId, name, description, now, now, caller);
    InsertGroupOk(s.Snapshot(), g);
    s.SetGroups(s.groups + [g]);
    var m := GroupMember(memberId, groupId, caller, Admin, now, now);
    assert g in s.groups;
    InsertMemberOk(s.Snapshot(), m);
    s.SetMembers(s.members + [m]);
    r := Ok(g);
  }

  /** `update`: admins only; fields left out keep their value. */
  method Update(s: Store, caller: Id, id: Id, name: Option<string>, description: Option<string>, now: int)
    returns (r: Result<Group>)
    requires s.Valid() && caller in UserIds(s.users)
    modifies s`groups
    ensures s.Valid()
    ensures !UpdateGroupInputOk(name, description) ==> r == Err(BadRequest)
    ensures UpdateGroupInputOk(name, description) && CheckGroupPermission(old(s.members), caller, id, Admin).Err? ==>
              r == Err(Forbidden)
    ensures r.Err? ==> s.groups == old(s.groups)
    ensures r.Ok? <==> UpdateGroupInputOk(name, description) && CheckGroupPermission(old(s.members), caller, id, Admin).Ok?
    ensures r.Ok? ==> FindGroup(old(s.groups), id).Some?
                      && r.value == ReviseGroup(FindGroup(old(s.groups), id).value, name, description, now)
    ensures r.Ok? ==> s.groups == UpdateGroup(old(s.groups), id, name, description, now)
  {
    if !UpdateGroupInputOk(name, description) {
      return Err(BadRequest);
    }
    var perm := CheckGroupPermission(s.members, caller, id, Admin);
    if perm.Err? {
      return Err(Forbidden);
    }
    var before := s.groups;
    var f := FindGroup(before, id);
    assert f.Some?;
    var gs := UpdateGroup(before, id, name, description, now);
    UpdateGroupsOk(s.Snapshot(), gs);
    s.SetGroups(gs);
    var k := FindIndex(before, (g: Group) => g.id == id);
    assert gs[k] == ReviseGroup(before[k], name, description, now);
    r := Ok(gs[k]);
  }

  /** `delete`: admins only; the store cascades to memberships, invitations
      and meal plans. */
  method Delete(s: Store, caller: Id, id: Id) returns (r: Result<()>)
    requires s.Valid() && caller in UserIds(s.users)
    modifies s
    ensures s.Valid()
    ensures r.Err? <==> CheckGroupPermission(old(s.members), caller, id, Admin).Err?
    ensures r.Err? ==> r.error == Forbidden && s.Snapshot() == old(s.Snapshot())
    ensures r.Ok? ==> s.Snapshot() == DeleteGroup(old(s.Snapshot()), id)
  {
    var perm := CheckGroupPermission(s.members, caller, id, Admin);
    if perm.Err? {
      return Err(Forbidden);
    }
    s.ApplyCascade(Roots(None, {id}, {}, {}));
    r := Ok(());
  }

  /** `addMember`: moderators and admins; the role defaults to member. */
  method AddMember(s: Store, caller: Id, groupId: Id, userId: Id, role: Option<Role>, now: int, memberId: Id)
    returns (r: Result<GroupMember>)
    requires s.Valid() && caller in UserIds(s.users)
    requires memberId !in MemberIds(s.members)
    modifies s`members
    ensures s.Valid()
    ensures CheckGroupPermission(old(s.members), caller, groupId, Moderator).Err? ==> r == Err(Forbidden)
    ensures (CheckGroupPermission(old(s.members), caller, groupId, Moderator).Ok?
             && FindMember(old(s.members), groupId, userId).Some?) ==> r == Err(Conflict)
    ensures (CheckGroupPermission(old(s.members), caller, groupId, Moderator).Ok?
             && FindMember(old(s.members), groupId, userId).None? && userId !in UserIds(s.users)) ==> r == Err(NotFound)
    ensures r.Ok? <==> && CheckGroupPermission(old(s.members), caller, groupId, Moderator).Ok?
                       && FindMember(old(s.members), groupId, userId).None?
                       && userId in UserIds(s.users)
    ensures r.Err? ==> s.members == old(s.members)
    ensures r.Ok? ==> r.value == GroupMember(memberId, groupId, userId, role.GetOr(DefaultRole), now, now)
                      && s.members == old(s.members) + [r.value]
  {
    var perm := CheckGroupPermission(s.members, caller, groupId, Moderator);
    if perm.Err? {
      return Err(Forbidden);
    }
    if FindMember(s.members, groupId, userId).Some? {
      return Err(Conflict);
    }
    if userId !in UserIds(s.users) {
      return Err(NotFound);
    }
    var m := GroupMember(memberId, groupId, userId, role.GetOr(DefaultRole), now, now);
    InsertMemberOk(s.Snapshot(), m);
    s.SetMembers(s.members + [m]);
    r := Ok(m);
  }

  /** A role change keeps the store consistent. */
  lemma SetRoleOk(t: Tables, groupId: Id, userId: Id, role: Role, now: int)
    requires Consistent(t)
    ensures Consistent(t.(members := SetRole(t.members, groupId, userId, role, now)))
  {
    UpdateMembersOk(t, SetRole(t.members, groupId, userId, role, now));
  }

  /** `updateMemberRole`: admins only; an admin who is the group's only admin
      cannot change their own role. Returns the first updated row. */
  method UpdateMemberRole(s: Store, caller: Id, groupId: Id, userId: Id, role: Role, now: int)
    returns (r: Result<GroupMember>)
    requires s.Valid() && caller in UserIds(s.users)
    modifies s`members
    ensures s.Valid()
    ensures CheckGroupPermission(old(s.members), caller, groupId, Admin).Err? ==> r == Err(Forbidden)
    ensures (CheckGroupPermission(old(s.members), caller, groupId, Admin).Ok? && userId == caller
             && AdminCount(old(s.members), groupId) == 1) ==> r == Err(Forbidden)
    ensures (CheckGroupPermission(old(s.members), caller, groupId, Admin).Ok?
             && !(userId == caller && AdminCount(old(s.members), groupId) == 1)
             && FindMember(old(s.members), groupId, userId).None?) ==> r == Err(NotFound)
    ensures r.Ok? <==> && CheckGroupPermission(old(s.members), caller, groupId, Admin).Ok?
                       && !(userId == caller && AdminCount(old(s.members), groupId) == 1)
                       && FindMember(old(s.members), groupId, userId).Some?
    ensures r.Err? ==> s.members == old(s.members)
    ensures r.Ok? ==> s.members == SetRole(old(s.members), groupId, userId, role, now)
    ensures r.Ok? ==> FindMember(old(s.members), groupId, userId).Some?
                      && r.value == FindMember(old(s.members), groupId, userId).value.(role := role, updatedAt := now)
    ensures r.Ok? && (userId != caller || SingleMembership(old(s.members), groupId, caller)) ==>
              AdminCount(s.members, groupId) >= 1
  {
    var perm := CheckGroupPermission(s.members, caller, groupId, Admin);
    if perm.Err? {
      return Err(Forbidden);
    }
    if userId == caller && AdminCount(s.members, groupId) == 1 {
      return Err(Forbidden);
    }
    var before := s.members;
    var target := FindMember(before, groupId, userId);
    if target.None? {
      return Err(NotFound);
    }
    var ms := SetRole(before, groupId, userId, role, now);
    RoleChangeKeepsAdmin(before, groupId, caller, userId, role, now);
    SetRoleOk(s.Snapshot(), groupId, userId, role, now);
    s.SetMembers(ms);
    r := Ok(target.value.(role := role, updatedAt := now));
  }

  /** The target's (first) row in the group is an admin row and the group has
      exactly one admin row: the case both removal guards refuse. */
  predicate SoleAdminTarget(members: seq<GroupMember>, groupId: Id, userId: Id) {
    && FindMember(members, groupId, userId).Some?
    && FindMember(members, groupId, userId).value.role == Admin
    && AdminCount(members, groupId) == 1
  }

  /** `removeMember` as written: a member may remove themselves; removing
      someone else needs moderator, and the only admin cannot be removed by
      someone else. The caller removing themselves skips that guard. */
  method RemoveMember(s: Store, caller: Id, groupId: Id, userId: Id) returns (r: Result<()>)
    requires s.Valid() && caller in UserIds(s.users)
    modifies s`members
    ensures s.Valid()
    ensures CheckGroupPermission(old(s.members), caller, groupId, Member).Err? ==> r == Err(Forbidden)
    ensures userId != caller && CheckGroupPermission(old(s.members), caller, groupId, Moderator).Err? ==> r == Err(Forbidden)
    ensures (userId != caller && FindMember(old(s.members), groupId, userId).Some?
             && FindMember(old(s.members), groupId, userId).value.role == Admin
             && AdminCount(old(s.members), groupId) == 1) ==> r == Err(Forbidden)
    ensures r.Err? ==> s.members == old(s.members)
    ensures userId == caller && CheckGroupPermission(old(s.members), caller, groupId, Member).Ok? ==> r.Ok?
    ensures r.Ok? <==> && CheckGroupPermission(old(s.members), caller, groupId, Member).Ok?
                       && (userId != caller ==>
                             && CheckGroupPermission(old(s.members), caller, groupId, Moderator).Ok?
                             && !SoleAdminTarget(old(s.members), groupId, userId))
    ensures r.Ok? ==> s.members == WithoutMembership(old(s.members), groupId, userId)
    ensures (r.Ok? && userId != caller && SingleMembership(old(s.members), groupId, userId)
             && AdminCount(old(s.members), groupId) >= 1) ==> AdminCount(s.members, groupId) >= 1
  {
    var perm := CheckGroupPermission(s.members, caller, groupId, Member);
    if perm.Err? {
      return Err(Forbidden);
    }
    if userId != caller {
      var mod := CheckGroupPermission(s.members, caller, groupId, Moderator);
      if mod.Err? {
        return Err(Forbidden);
      }
    }
    if userId != caller {
      var target := FindMember(s.members, groupId, userId);
      if target.Some? && target.value.role == Admin && AdminCount(s.members, groupId) == 1 {
        return Err(Forbidden);
      }
    }
    var before := s.members;
    if userId != caller && SingleMembership(before, groupId, userId) && AdminCount(before, groupId) >= 1 {
      GuardedRemovalKeepsAdmin(before, groupId, userId);
    }
    var ms := WithoutMembership(before, groupId, userId);
    WithoutMembershipKeys(before, groupId, userId);
    RemoveMembersOk(s.Snapshot(), ms);
    s.SetMembers(ms);
    r := Ok(());
  }

  /** `removeMember` with the sole-admin guard applied to every target,
      the caller included, as `leave` applies it. */
  method RemoveMemberGuarded(s: Store, caller: Id, groupId: Id, userId: Id) returns (r: Result<()>)
    requires s.Valid() && caller in UserIds(s.users)
    modifies s`members
    ensures s.Valid()
    ensures CheckGroupPermission(old(s.members), caller, groupId, Member).Err? ==> r == Err(Forbidden)
    ensures userId != caller && CheckGroupPermission(old(s.members), caller, groupId, Moderator).Err? ==> r == Err(Forbidden)
    ensures (FindMember(old(s.members), groupId, userId).Some?
             && FindMember(old(s.members), groupId, userId).value.role == Admin
             && AdminCount(old(s.members), groupId) == 1) ==> r == Err(Forbidden)
    ensures r.Err? ==> s.members == old(s.members)
    ensures r.Ok? ==> s.members == WithoutMembership(old(s.members), groupId, userId)
    ensures r.Ok? <==> && CheckGroupPermission(old(s.members), caller, groupId, Member).Ok?
                       && (userId != caller ==> CheckGroupPermission(old(s.members), caller, groupId, Moderator).Ok?)
                       && !SoleAdminTarget(old(s.members), groupId, userId)
    ensures (r.Ok? && SingleMembership(old(s.members), groupId, userId)
             && AdminCount(old(s.members), groupId) >= 1) ==> AdminCount(s.members, groupId) >= 1
  {
    var perm := CheckGroupPermission(s.members, caller, groupId, Member);
    if perm.Err? {
      return Err(Forbidden);
    }
    if userId != caller {
      var mod := CheckGroupPermission(s.members, caller, groupId, Moderator);
      if mod.Err? {
        return Err(Forbidden);
      }
    }
    var target := FindMember(s.members, groupId, userId);
    if target.Some? && target.value.role == Admin && AdminCount(s.members, groupId) == 1 {
      return Err(Forbidden);
    }
    var before := s.members;
    if SingleMembership(before, groupId, userId) && AdminCount(before, groupId) >= 1 {
      GuardedRemovalKeepsAdmin(before, groupId, userId);
    }
    var ms := WithoutMembership(before, groupId, userId);
    WithoutMembershipKeys(before, groupId, userId);
    RemoveMembersOk(s.Snapshot(), ms);
    s.SetMembers(ms);
    r := Ok(());
  }

  /** `leave`: the caller's rows go, unless the caller is the only admin. */
  method Leave(s: Store, caller: Id, groupId: Id) returns (r: Result<()>)
    requires s.Valid() && caller in UserIds(s.users)
    modifies s`members
    ensures s.Valid()
    ensures CheckGroupPermission(old(s.members), caller, groupId, Member).Err? ==> r == Err(Forbidden)
    ensures (CheckGroupPermission(old(s.members), caller, groupId, Member).Ok?
             && CheckGroupPermission(old(s.members), caller, groupId, Member).value.role == Admin
             && AdminCount(old(s.members), groupId) == 1) ==> r == Err(Forbidden)
    ensures r.Err? ==> s.members == old(s.members)
    ensures r.Ok? <==> && CheckGroupPermission(old(s.members), caller, groupId, Member).Ok?
                       && !(CheckGroupPermission(old(s.members), caller, groupId, Member).value.role == Admin
                            && AdminCount(old(s.members), groupId) == 1)
    ensures r.Ok? ==> s.members == WithoutMembership(old(s.members), groupId, caller)
    ensures (r.Ok? && SingleMembership(old(s.members), groupId, caller)
             && AdminCount(old(s.members), groupId) >= 1) ==> AdminCount(s.members, groupId) >= 1
  {
    var perm := CheckGroupPermission(s.members, caller, groupId, Member);
    if perm.Err? {
      return Err(Forbidden);
    }
    if perm.value.role == Admin && AdminCount(s.members, groupId) == 1 {
      return Err(Forbidden);
    }
    var before := s.members;
    if SingleMembership(before, groupId, caller) && AdminCount(before, groupId) >= 1 {
      GuardedRemovalKeepsAdmin(before, groupId, caller);
    }
    var ms := WithoutMembership(before, groupId, caller);
    WithoutMembershipKeys(before, groupId, caller);
    RemoveMembersOk(s.Snapshot(), ms);
    s.SetMembers(ms);
    r := Ok(());
  }

  // ---------------------------------------------------------------------
  // Invitations.

  /** `createInvitation`: moderators and admins; at most one pending
      invitation per (group, invitee); it expires `expiresInDays` days on. */
  method CreateInvitation(s: Store, caller: Id, groupId: Id, invitedUserId: Id, role: Option<Role>,
                          message: Option<string>, expiresInDays: Option<int>, now: int, invitationId: Id)
    returns (r: Result<GroupInvitation>)
    requires s.Valid() && caller in UserIds(s.users)
    requires invitationId !in InvitationIds(s.invitations)
    modifies s`invitations
    ensures s.Valid()
    ensures !CreateInvitationInputOk(message, expiresInDays) ==> r == Err(BadRequest)
    ensures (CreateInvitationInputOk(message, expiresInDays)
             && CheckGroupPermission(s.members, caller, groupId, Moderator).Err?) ==> r == Err(Forbidden)
    ensures (CreateInvitationInputOk(message, expiresInDays)
             && CheckGroupPermission(s.members, caller, groupId, Moderator).Ok?
             && FindMember(s.members, groupId, invitedUserId).Some?) ==> r == Err(Conflict)
    ensures (CreateInvitationInputOk(message, expiresInDays)
             && CheckGroupPermission(s.members, caller, groupId, Moderator).Ok?
             && FindMember(s.members, groupId, invitedUserId).None?
             && HasPendingInvitation(old(s.invitations), groupId, invitedUserId)) ==> r == Err(Conflict)
    ensures (CreateInvitationInputOk(message, expiresInDays)
             && CheckGroupPermission(s.members, caller, groupId, Moderator).Ok?
             && FindMember(s.members, groupId, invitedUserId).None?
             && !HasPendingInvitation(old(s.invitations), groupId, invitedUserId)
             && invitedUserId !in UserIds(s.users)) ==> r == Err(NotFound)
    ensures r.Ok? <==> && CreateInvitationInputOk(message, expiresInDays)
                       && CheckGroupPermission(s.members, caller, groupId, Moderator).Ok?
                       && FindMember(s.members, groupId, invitedUserId).None?
                       && !HasPendingInvitation(old(s.invitations), groupId, invitedUserId)
                       && invitedUserId in UserIds(s.users)
    ensures r.Err? ==> s.invitations == old(s.invitations)
    ensures r.Ok? ==> r.value == NewInvitation(invitationId, groupId, invitedUserId, caller, role.GetOr(DefaultRole), message,
                                               now + expiresInDays.GetOr(DefaultExpiryDays) * DayMillis, now)
                      && s.invitations == old(s.invitations) + [r.value]
    ensures r.Ok? ==> r.value.expiresAt > now
  {
    if !CreateInvitationInputOk(message, expiresInDays) {
      return Err(BadRequest);
    }
    var perm := CheckGroupPermission(s.members, caller, groupId, Moderator);
    if perm.Err? {
      return Err(Forbidden);
    }
    if FindMember(s.members, groupId, invitedUserId).Some? {
      return Err(Conflict);
    }
    if HasPendingInvitation(s.invitations, groupId, invitedUserId) {
      return Err(Conflict);
    }
    if invitedUserId !in UserIds(s.users) {
      return Err(NotFound);
    }
    var expiresAt := now + expiresInDays.GetOr(DefaultExpiryDays) * DayMillis;
    var inv := NewInvitation(invitationId, groupId, invitedUserId, caller, role.GetOr(DefaultRole), message, expiresAt, now);
    InsertInvitationOk(s.Snapshot(), inv);
    s.SetInvitations(s.invitations + [inv]);
    r := Ok(inv);
  }

  /** The status UPDATE both answering and cancelling run: it never makes a
      row pending, so the store stays consistent. */
  method WriteStatus(s: Store, invitationId: Id, status: InvitationStatus, now: int)
    requires s.Valid() && status != Pending
    modifies s`invitations
    ensures s.Valid() && s.invitations == SetStatus(old(s.invitations), invitationId, status, now)
  {
    var invs := SetStatus(s.invitations, invitationId, status, now);
    UpdateInvitationsOk(s.Snapshot(), invs);
    s.SetInvitations(invs);
  }

  /** `respondToInvitation`: only a pending invitation addressed to the
      caller can be answered. One past its expiry is marked expired, and that
      write stays although the call fails. Accepting adds a membership with
      the invitation's role, without looking for an existing one. */
  method RespondToInvitation(s: Store, caller: Id, invitationId: Id, accept: bool, now: int, memberId: Id)
    returns (r: Result<InvitationStatus>)
    requires s.Valid() && caller in UserIds(s.users)
    requires memberId !in MemberIds(s.members)
    modifies s`members, s`invitations
    ensures s.Valid()
    ensures var f := FindPendingFor(old(s.invitations), invitationId, caller);
      f.None? ==> r == Err(NotFound) && s.invitations == old(s.invitations) && s.members == old(s.members)
    ensures var f := FindPendingFor(old(s.invitations), invitationId, caller);
      f.Some? && f.value.expiresAt < now ==>
        && r == Err(BadRequest)
        && s.invitations == SetStatus(old(s.invitations), invitationId, Expired, now)
        && s.members == old(s.members)
    ensures var f := FindPendingFor(old(s.invitations), invitationId, caller);
      f.Some? && f.value.expiresAt >= now && accept ==>
        && r == Ok(Accepted)
        && s.members == old(s.members) + [GroupMember(memberId, f.value.groupId, caller, f.value.role, now, now)]
        && s.invitations == SetStatus(old(s.invitations), invitationId, Accepted, now)
    ensures var f := FindPendingFor(old(s.invitations), invitationId, caller);
      f.Some? && f.value.expiresAt >= now && !accept ==>
        && r == Ok(Declined)
        && s.members == old(s.members)
        && s.invitations == SetStatus(old(s.invitations), invitationId, Declined, now)
  {
    var f := FindPendingFor(s.invitations, invitationId, caller);
    if f.None? {
      return Err(NotFound);
    }
    var inv := f.value;
    if inv.expiresAt < now {
      WriteStatus(s, invitationId, Expired, now);
      return Err(BadRequest);
    }
    if accept {
      var m := GroupMember(memberId, inv.groupId, caller, inv.role, now, now);
      InsertMemberOk(s.Snapshot(), m);
      s.SetMembers(s.members + [m]);
      WriteStatus(s, invitationId, Accepted, now);
      return Ok(Accepted);
    }
    WriteStatus(s, invitationId, Declined, now);
    r := Ok(Declined);
  }

  /** `cancelInvitation`: the invitation must exist, the caller must be a
      moderator or admin of its group, and it must still be pending; it then
      becomes declined. */
  method CancelInvitation(s: Store, caller: Id, invitationId: Id, now: int) returns (r: Result<()>)
    requires s.Valid() && caller in UserIds(s.users)
    modifies s`invitations
    ensures s.Valid()
    ensures FindInvitation(old(s.invitations), invitationId).None? ==> r == Err(NotFound)
    ensures var f := FindInvitation(old(s.invitations), invitationId);
      f.Some? && CheckGroupPermission(s.members, caller, f.value.groupId, Moderator).Err? ==> r == Err(Forbidden)
    ensures var f := FindInvitation(old(s.invitations), invitationId);
      f.Some? && CheckGroupPermission(s.members, caller, f.value.groupId, Moderator).Ok? && f.value.status != Pending ==>
        r == Err(BadRequest)
    ensures r.Ok? <==> var f := FindInvitation(old(s.invitations), invitationId);
      f.Some? && CheckGroupPermission(s.members, caller, f.value.groupId, Moderator).Ok? && f.value.status == Pending
    ensures r.Err? ==> s.invitations == old(s.invitations)
    ensures r.Ok? ==> FindInvitation(old(s.invitations), invitationId).Some?
                      && FindInvitation(old(s.invitations), invitationId).value.status == Pending
                      && s.invitations == SetStatus(old(s.invitations), invitationId, Declined, now)
  {
    var f := FindInvitation(s.invitations, invitationId);
    if f.None? {
      return Err(NotFound);
    }
    var perm := CheckGroupPermission(s.members, caller, f.value.groupId, Moderator);
    if perm.Err? {
      return Err(Forbidden);
    }
    if f.value.status != Pending {
      return Err(BadRequest);
    }
    WriteStatus(s, invitationId, Declined, now);
    r := Ok(());
  }

  /** A pending invitation whose expiry lies strictly before `now`. */
  predicate Overdue(i: GroupInvitation, now: int) {
    i.status == Pending && i.expiresAt < now
  }

  function Expire(i: GroupInvitation, now: int): GroupInvitation {
    i.(status := Expired, updatedAt := now)
  }

  /** What `cleanupExpiredInvitations` leaves in the table: every overdue
      invitation expired, every other row untouched, and no overdue row left. */
  function ExpireOverdue(invitations: seq<GroupInvitation>, now: int): (r: seq<GroupInvitation>)
    ensures |r| == |invitations|
    ensures forall k :: 0 <= k < |invitations| && Overdue(invitations[k], now) ==>
      r[k].status == Expired && r[k] == invitations[k].(status := r[k].status, updatedAt := now)
    ensures forall k :: 0 <= k < |invitations| && !Overdue(invitations[k], now) ==> r[k] == invitations[k]
    ensures forall i :: i in r ==> !Overdue(i, now)
  {
    UpdateWhere(invitations, (i: GroupInvitation) => Overdue(i, now), (i: GroupInvitation) => Expire(i, now))
  }

  /** Running the cleanup twice at the same time changes nothing the first
      run did not. */
  lemma ExpireOverdueIdempotent(invitations: seq<GroupInvitation>, now: int)
    ensures ExpireOverdue(ExpireOverdue(invitations, now), now) == ExpireOverdue(invitations, now)
  {
    var once := ExpireOverdue(invitations, now);
    var twice := ExpireOverdue(once, now);
    forall k | 0 <= k < |once| ensures twice[k] == once[k] {
      assert once[k] in once;
    }
  }

  /** Expiring overdue invitations keeps the store consistent: no row turns
      pending, and no key or reference changes. */
  lemma ExpireOverdueOk(t: Tables, now: int)
    requires Consistent(t)
    ensures Consistent(t.(invitations := ExpireOverdue(t.invitations, now)))
  {
    UpdateInvitationsOk(t, ExpireOverdue(t.invitations, now));
  }

  /** `cleanupExpiredInvitations`: any signed-in user may run it. The UPDATE
      visits the rows one at a time and rewrites each overdue one. */
  method CleanupExpiredInvitations(s: Store, now: int)
    requires s.Valid()
    modifies s`invitations
    ensures s.Valid()
    ensures s.invitations == ExpireOverdue(old(s.invitations), now)
  {
    ghost var target := ExpireOverdue(s.invitations, now);
    var invs := s.invitations;
    var k := 0;
    while k < |invs|
      invariant |invs| == |s.invitations| && 0 <= k <= |invs|
      invariant forall j :: 0 <= j < k ==> invs[j] == target[j]
      invariant forall j :: k <= j < |invs| ==> invs[j] == s.invitations[j]
    {
      if Overdue(invs[k], now) {
        invs := invs[k := Expire(invs[k], now)];
      }
      k := k + 1;
    }
    assert invs == target;
    ExpireOverdueOk(s.Snapshot(), now);
    s.SetInvitations(invs);
  }

  // ---------------------------------------------------------------------
  // Queries.

  /** A group the caller belongs to, with the caller's role and join time. */
  datatype Membership = Membership(group: Group, role: Role, joinedAt: int)

  /** `getMyGroups`: one entry per membership row of the caller whose group
      exists, in table order. */
  function MyGroups(groups: seq<Group>, members: seq<GroupMember>, caller: Id): (r: seq<Membership>)
    ensures |r| <= |members|
    ensures forall e :: e in r ==>
              e.group in groups &&
              exists m :: m in members && m.userId == caller && m.groupId == e.group.id && m.role == e.role && m.joinedAt == e.joinedAt
    decreases |members|
  {
    if members == [] then []
    else
      var m := members[0];
      var g := FindGroup(groups, m.groupId);
      var head := if m.userId == caller && g.Some? then [Membership(g.value, m.role, m.joinedAt)] else [];
      assert forall x :: x in members[1..] ==> x in members;
      head + MyGroups(groups, members[1..], caller)
  }

  /** Every membership of the caller in an existing group is listed. */
  lemma {:induction false} MyGroupsComplete(groups: seq<Group>, members: seq<GroupMember>, caller: Id, m: GroupMember)
    requires m in members && m.userId == caller && m.groupId in GroupIds(groups)
    ensures exists e :: e in MyGroups(groups, members, caller) && e.group.id == m.groupId && e.role == m.role
                        && e.joinedAt == m.joinedAt
    decreases |members|
  {
    var g := FindGroup(groups, members[0].groupId);
    if members[0] == m {
      var e := Membership(g.value, m.role, m.joinedAt);
      assert MyGroups(groups, members, caller)[0] == e;
    } else {
      MyGroupsComplete(groups, members[1..], caller, m);
      var e :| e in MyGroups(groups, members[1..], caller) && e.group.id == m.groupId && e.role == m.role
               && e.joinedAt == m.joinedAt;
      var head := if members[0].userId == caller && g.Some? then [Membership(g.value, members[0].role, members[0].joinedAt)] else [];
      assert MyGroups(groups, members, caller) == head + MyGroups(groups, members[1..], caller);
    }
  }

  /** `getById`: members only; the group and its membership rows. */
  function GroupById(groups: seq<Group>, members: seq<GroupMember>, caller: Id, id: Id): (r: Result<(Group, seq<GroupMember>)>)
    ensures CheckGroupPermission(members, caller, id, Member).Err? ==> r == Err(Forbidden)
    ensures CheckGroupPermission(members, caller, id, Member).Ok? && id !in GroupIds(groups) ==> r == Err(NotFound)
    ensures r.Ok? <==> CheckGroupPermission(members, caller, id, Member).Ok? && id in GroupIds(groups)
    ensures r.Ok? ==> r.value.0 in groups && r.value.0.id == id
    ensures r.Ok? ==> forall m :: m in r.value.1 <==> m in members && m.groupId == id
  {
    if CheckGroupPermission(members, caller, id, Member).Err? then Err(Forbidden)
    else match FindGroup(groups, id)
      case None => Err(NotFound)
      case Some(g) => Ok((g, Filter(members, (m: GroupMember) => m.groupId == id)))
  }

  /** The users with a membership row in a group. */
  function MemberUserIds(members: seq<GroupMember>, groupId: Id): set<Id> {
    set m | m in members && m.groupId == groupId :: m.userId
  }

  /** `searchUsers`: users who are not members of the group and whose name
      contains the query, at most `limit` of them. No permission is checked. */
  function SearchUsers(users: seq<User>, members: seq<GroupMember>, query: string, groupId: Id, limit: Option<int>)
    : (r: Result<seq<User>>)
    ensures r.Err? <==> !SearchInputOk(query, limit)
    ensures r.Err? ==> r.error == BadRequest
    ensures r.Ok? ==> |r.value| <= limit.GetOr(DefaultSearchLimit)
    ensures r.Ok? ==> forall u :: u in r.value ==> u in users && Contains(u.name, query) && u.id !in MemberUserIds(members, groupId)
    ensures r.Ok? ==> forall u :: (u in users && Contains(u.name, query) && u.id !in MemberUserIds(members, groupId)
                                   && |r.value| < limit.GetOr(DefaultSearchLimit)) ==> u in r.value
  {
    if !SearchInputOk(query, limit) then Err(BadRequest)
    else
      var n := limit.GetOr(DefaultSearchLimit);
      var candidates := Filter(users, (u: User) => Contains(u.name, query) && u.id !in MemberUserIds(members, groupId));
      Ok(Take(candidates, n))
  }

  /** `getGroupInvitations`: moderators and admins; the group's pending
      invitations, overdue ones included. */
  function GroupInvitations(members: seq<GroupMember>, invitations: seq<GroupInvitation>, caller: Id, groupId: Id)
    : (r: Result<seq<GroupInvitation>>)
    ensures r.Err? <==> CheckGroupPermission(members, caller, groupId, Moderator).Err?
    ensures r.Err? ==> r.error == Forbidden
    ensures r.Ok? ==> forall i :: i in r.value <==> i in invitations && i.groupId == groupId && i.status == Pending
  {
    if CheckGroupPermission(members, caller, groupId, Moderator).Err? then Err(Forbidden)
    else Ok(PendingOnly(invitations, (i: GroupInvitation) => i.groupId == groupId))
  }

  /** `getMyInvitations`: the pending invitations addressed to the caller. */
  function MyInvitations(invitations: seq<GroupInvitation>, caller: Id): (r: seq<GroupInvitation>)
    ensures forall i :: i in r <==> i in invitations && i.invitedUserId == caller && i.status == Pending
  {
    PendingOnly(invitations, (i: GroupInvitation) => i.invitedUserId == caller)
  }
}
