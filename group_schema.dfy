/** The tables `group`, `group_member` and `group_invitation`: their rows, the
    enumerated columns, the column defaults, and the constraints the schema
    declares (primary keys and foreign-key references). The statements the
    group router runs against these tables are defined here as functions on
    the row sequences. */
module GroupSchema {
  import opened Common

  datatype Role = Admin | Moderator | Member

  datatype InvitationStatus = Pending | Accepted | Declined | Expired

  datatype Group = Group(
    id: Id,
    name: string,
    description: Option<string>,
    createdAt: int,
    updatedAt: int,
    createdBy: Id)

  datatype GroupMember = GroupMember(
    id: Id,
    groupId: Id,
    userId: Id,
    role: Role,
    joinedAt: int,
    updatedAt: int)

  datatype GroupInvitation = GroupInvitation(
    id: Id,
    groupId: Id,
    invitedUserId: Id,
    invitedByUserId: Id,
    role: Role,
    status: InvitationStatus,
    message: Option<string>,
    expiresAt: int,
    createdAt: int,
    updatedAt: int)

  /** The `$defaultFn` of both `role` columns. */
  const DefaultRole: Role := Member

  /** An invitation row as inserted: `status` is left to its default. */
  function NewInvitation(id: Id, groupId: Id, invitedUserId: Id, invitedByUserId: Id, role: Role,
                         message: Option<string>, expiresAt: int, now: int): (inv: GroupInvitation)
    ensures inv.status == Pending
  {
    GroupInvitation(id, groupId, invitedUserId, invitedByUserId, role, Pending, message, expiresAt, now, now)
  }

  function GroupKey(g: Group): Id { g.id }
  function MemberKey(m: GroupMember): Id { m.id }
  function InvitationKey(i: GroupInvitation): Id { i.id }

  function GroupIds(groups: seq<Group>): set<Id> { set g | g in groups :: g.id }
  function MemberIds(members: seq<GroupMember>): set<Id> { set m | m in members :: m.id }
  function InvitationIds(invitations: seq<GroupInvitation>): set<Id> { set i | i in invitations :: i.id }

  predicate IsPending(i: GroupInvitation) { i.status == Pending }

  /** The (group, invitee) pair a pending invitation is unique for. */
  function InviteeKey(i: GroupInvitation): (Id, Id) { (i.groupId, i.invitedUserId) }

  /** Primary key and `createdBy` references `user.id`. */
  ghost predicate GroupsOk(groups: seq<Group>, users: seq<User>) {
    && UniqueKeys(groups, GroupKey)
    && (forall g :: g in groups ==> g.createdBy in UserIds(users))
  }

  /** Primary key, `groupId` references `group.id`, `userId` references `user.id`.
      The pair (groupId, userId) is not declared unique. */
  ghost predicate MembersOk(members: seq<GroupMember>, groups: seq<Group>, users: seq<User>) {
    && UniqueKeys(members, MemberKey)
    && (forall m :: m in members ==> m.groupId in GroupIds(groups) && m.userId in UserIds(users))
  }

  /** Primary key, the three references, and at most one pending invitation per
      (group, invitee): a rule the procedures keep, not a declared index. */
  ghost predicate InvitationsOk(invitations: seq<GroupInvitation>, groups: seq<Group>, users: seq<User>) {
    && UniqueKeys(invitations, InvitationKey)
    && UniqueKeysWhere(invitations, IsPending, InviteeKey)
    && (forall i :: i in invitations ==>
          i.groupId in GroupIds(groups) && i.invitedUserId in UserIds(users) && i.invitedByUserId in UserIds(users))
  }

  /** SELECT the group with this id. */
  function FindGroup(groups: seq<Group>, id: Id): (r: Option<Group>)
    ensures r.Some? ==> r.value in groups && r.value.id == id
    ensures r.None? <==> id !in GroupIds(groups)
  {
    Find(groups, (g: Group) => g.id == id)
  }

  /** The row an UPDATE of the group's details writes: fields left out of the
      input keep their value, and `updatedAt` is the time of the call. */
  function ReviseGroup(g: Group, name: Option<string>, description: Option<string>, now: int): (r: Group)
    ensures r.id == g.id && r.createdBy == g.createdBy && r.createdAt == g.createdAt
    ensures name.None? ==> r.name == g.name
    ensures description.None? ==> r.description == g.description
    ensures name.Some? ==> r.name == name.value
    ensures description.Some? ==> r.description == description
    ensures r.updatedAt == now
  {
    g.(name := Patch(name, g.name), description := PatchNullable(description, g.description), updatedAt := now)
  }

  /** UPDATE the group with this id. */
  function UpdateGroup(groups: seq<Group>, id: Id, name: Option<string>, description: Option<string>, now: int): (r: seq<Group>)
    ensures |r| == |groups|
    ensures forall k :: 0 <= k < |groups| ==>
      r[k] == if groups[k].id == id then ReviseGroup(groups[k], name, description, now) else groups[k]
  {
    UpdateWhere(groups, (g: Group) => g.id == id, (g: Group) => ReviseGroup(g, name, description, now))
  }

  /** SELECT the membership row of `userId` in `groupId`; `.get()` takes the first. */
  function FindMember(members: seq<GroupMember>, groupId: Id, userId: Id): (r: Option<GroupMember>)
    ensures r.Some? ==> r.value in members && r.value.groupId == groupId && r.value.userId == userId
    ensures r.None? <==> forall m :: m in members ==> !(m.groupId == groupId && m.userId == userId)
  {
    Find(members, (m: GroupMember) => m.groupId == groupId && m.userId == userId)
  }

  /** At most one membership row for the pair: what the schema leaves unenforced. */
  ghost predicate SingleMembership(members: seq<GroupMember>, groupId: Id, userId: Id) {
    forall a, b ::
      a in members && b in members && a.groupId == groupId && a.userId == userId && b.groupId == groupId && b.userId == userId
      ==> a == b
  }

  /** The admin rows of a group: the `adminCount` query. */
  function Admins(members: seq<GroupMember>, groupId: Id): (r: seq<GroupMember>)
    ensures forall m :: m in r <==> m in members && m.groupId == groupId && m.role == Admin
  {
    Filter(members, (m: GroupMember) => m.groupId == groupId && m.role == Admin)
  }

  function AdminCount(members: seq<GroupMember>, groupId: Id): nat {
    |Admins(members, groupId)|
  }

  /** DELETE the membership rows of `userId` in `groupId`. */
  function WithoutMembership(members: seq<GroupMember>, groupId: Id, userId: Id): (r: seq<GroupMember>)
    ensures forall m :: m in r <==> m in members && !(m.groupId == groupId && m.userId == userId)
  {
    Filter(members, (m: GroupMember) => !(m.groupId == groupId && m.userId == userId))
  }

  lemma WithoutMembershipKeys(members: seq<GroupMember>, groupId: Id, userId: Id)
    requires UniqueKeys(members, MemberKey)
    ensures UniqueKeys(WithoutMembership(members, groupId, userId), MemberKey)
  {
    FilterUniqueKeys(members, (m: GroupMember) => !(m.groupId == groupId && m.userId == userId), MemberKey);
  }

  /** UPDATE the role of the membership rows of `userId` in `groupId`. */
  function SetRole(members: seq<GroupMember>, groupId: Id, userId: Id, role: Role, now: int): (r: seq<GroupMember>)
    ensures |r| == |members|
    ensures forall k :: 0 <= k < |members| ==>
      r[k] == if members[k].groupId == groupId && members[k].userId == userId
              then members[k].(role := role, updatedAt := now) else members[k]
  {
    UpdateWhere(members, (m: GroupMember) => m.groupId == groupId && m.userId == userId,
                (m: GroupMember) => m.(role := role, updatedAt := now))
  }

  /** SELECT the invitation with this id. */
  function FindInvitation(invitations: seq<GroupInvitation>, id: Id): (r: Option<GroupInvitation>)
    ensures r.Some? ==> r.value in invitations && r.value.id == id
    ensures r.None? <==> id !in InvitationIds(invitations)
  {
    Find(invitations, (i: GroupInvitation) => i.id == id)
  }

  /** SELECT the pending invitation with this id addressed to `userId`. */
  function FindPendingFor(invitations: seq<GroupInvitation>, id: Id, userId: Id): (r: Option<GroupInvitation>)
    ensures r.Some? ==> r.value in invitations && r.value.id == id && r.value.invitedUserId == userId && r.value.status == Pending
    ensures r.None? <==> forall i :: i in invitations ==> !(i.id == id && i.invitedUserId == userId && i.status == Pending)
  {
    Find(invitations, (i: GroupInvitation) => i.id == id && i.invitedUserId == userId && i.status == Pending)
  }

  /** Whether a pending invitation of `userId` to `groupId` exists. */
  predicate HasPendingInvitation(invitations: seq<GroupInvitation>, groupId: Id, userId: Id) {
    Find(invitations, (i: GroupInvitation) => i.groupId == groupId && i.invitedUserId == userId && i.status == Pending).Some?
  }

  /** UPDATE the status of the invitation with this id. */
  function SetStatus(invitations: seq<GroupInvitation>, id: Id, status: InvitationStatus, now: int): (r: seq<GroupInvitation>)
    ensures |r| == |invitations|
    ensures forall k :: 0 <= k < |invitations| ==>
      r[k] == if invitations[k].id == id then invitations[k].(status := status, updatedAt := now) else invitations[k]
  {
    UpdateWhere(invitations, (i: GroupInvitation) => i.id == id,
                (i: GroupInvitation) => i.(status := status, updatedAt := now))
  }

  /** The pending rows in a listing: what both invitation listings return. */
  function PendingOnly(invitations: seq<GroupInvitation>, p: GroupInvitation -> bool): (r: seq<GroupInvitation>)
    ensures forall i :: i in r <==> i in invitations && i.status == Pending && p(i)
  {
    Filter(invitations, (i: GroupInvitation) => i.status == Pending && p(i))
  }

  /** Removing rows keeps every rule of the invitation table that does not
      mention the removed parents. */
  lemma FilterInvitationsOk(invitations: seq<GroupInvitation>, groups: seq<Group>, users: seq<User>,
                            p: GroupInvitation -> bool, groups': seq<Group>, users': seq<User>)
    requires InvitationsOk(invitations, groups, users)
    requires forall i :: i in invitations && p(i) ==>
      i.groupId in GroupIds(groups') && i.invitedUserId in UserIds(users') && i.invitedByUserId in UserIds(users')
    ensures InvitationsOk(Filter(invitations, p), groups', users')
  {
    FilterUniqueKeys(invitations, p, InvitationKey);
    FilterUniqueKeysWhere(invitations, IsPending, p, InviteeKey);
  }

  /** A status update keeps the invitation table's rules when it never turns a
      row pending. */
  lemma SetStatusOk(invitations: seq<GroupInvitation>, groups: seq<Group>, users: seq<User>,
                    id: Id, status: InvitationStatus, now: int)
    requires InvitationsOk(invitations, groups, users)
    requires status != Pending
    ensures InvitationsOk(SetStatus(invitations, id, status, now), groups, users)
  {
    var p := (i: GroupInvitation) => i.id == id;
    var f := (i: GroupInvitation) => i.(status := status, updatedAt := now);
    UpdateUniqueKeys(invitations, p, f, InvitationKey);
    UpdateUniqueKeysWhere(invitations, p, f, IsPending, InviteeKey);
    var r := SetStatus(invitations, id, status, now);
    forall x | x in r
      ensures x.groupId in GroupIds(groups) && x.invitedUserId in UserIds(users) && x.invitedByUserId in UserIds(users)
    {
      var k :| 0 <= k < |r| && r[k] == x;
      assert invitations[k] in invitations;
    }
  }
}
