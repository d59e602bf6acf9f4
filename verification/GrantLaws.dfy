/** Laws of the grant derivation over all users and all pages. */
module GrantLaws {
  import opened Resources
  import opened Text
  import opened WorkspaceRoles
  import opened WorkspaceGrants

  // ----- Pages

  lemma {:induction false} AllAwardsAppend(a: seq<User>, b: seq<User>, skip: Skip)
    ensures AllAwards(a + b, skip) == AllAwards(a, skip) + AllAwards(b, skip)
  {
    if b == [] {
      assert a + b == a;
    } else {
      var front, last := b[..|b| - 1], UserAwards(b[|b| - 1], skip);
      assert (a + b)[..|a + b| - 1] == a + front;
      AllAwardsAppend(a, front, skip);
      assert AllAwards(a + b, skip) == AllAwards(a + front, skip) + last;
      assert AllAwards(a, skip) + AllAwards(front, skip) + last == AllAwards(a, skip) + (AllAwards(front, skip) + last);
    }
  }

  ghost function Flat<T>(pages: seq<seq<T>>): seq<T> {
    if pages == [] then [] else Flat(pages[..|pages| - 1]) + pages[|pages| - 1]
  }

  /** What the calls of a listing that comes in pages emit, one after the other. */
  ghost function PagedGrants(workspace: Resource, pages: seq<seq<User>>, skip: Skip): seq<Grant> {
    if pages == [] then []
    else PagedGrants(workspace, pages[..|pages| - 1], skip) + GrantsOf(workspace, AllAwards(pages[|pages| - 1], skip))
  }

  /** Where the pages end makes no difference: paging is one pass over all users. */
  lemma {:induction false} PagingIsFlat(workspace: Resource, pages: seq<seq<User>>, skip: Skip)
    ensures PagedGrants(workspace, pages, skip) == GrantsOf(workspace, AllAwards(Flat(pages), skip))
  {
    if pages != [] {
      var front, last := pages[..|pages| - 1], pages[|pages| - 1];
      PagingIsFlat(workspace, front, skip);
      AllAwardsAppend(Flat(front), last, skip);
      GrantsOfAppend(workspace, AllAwards(Flat(front), skip), AllAwards(last, skip));
    }
  }

  // ----- The place of a target

  function IndexOf(t: Target): (n: nat)
    ensures n < TARGET_COUNT && TargetAt(n) == t
  {
    match t
    case InWorkspace(PrimaryOwner) => 0
    case InWorkspace(Owner) => 1
    case InWorkspace(Admin) => 2
    case InWorkspace(SingleChannelGuest) => 3
    case InWorkspace(MultiChannelGuest) => 4
    case InWorkspace(InvitedMember) => 5
    case InWorkspace(Member) => 6
    case InWorkspace(Bot) => 7
    case InOrganization(OrganizationPrimaryOwner) => 8
    case InOrganization(OrganizationOwner) => 9
    case InOrganization(OrganizationAdmin) => 10
    case Membership => 11
  }

  lemma IndexExact(t: Target, n: nat)
    requires n < TARGET_COUNT
    ensures TargetAt(n) == t <==> IndexOf(t) == n
  {
  }

  // ----- Skip switches

  /** Whether a grant's resource type is still synced. */
  predicate Synced(skip: Skip, g: Grant) {
    && !(skip.workspaceRole && g.entitlement.resource.id.resourceType == WORKSPACE_ROLE)
    && !(skip.enterpriseRole && g.entitlement.resource.id.resourceType == ENTERPRISE_ROLE)
  }

  function SyncedOnly(skip: Skip, gs: seq<Grant>): seq<Grant> {
    if gs == [] then []
    else
      var front, last := SyncedOnly(skip, gs[..|gs| - 1]), gs[|gs| - 1];
      if Synced(skip, last) then front + [last] else front
  }

  ghost function Unskipped(skip: Skip, awards: seq<Award>): seq<Award> {
    if awards == [] then []
    else
      var front, last := Unskipped(skip, awards[..|awards| - 1]), awards[|awards| - 1];
      if Skipped(skip, last.target) then front else front + [last]
  }

  lemma {:induction false} UnskippedAppend(skip: Skip, a: seq<Award>, b: seq<Award>)
    ensures Unskipped(skip, a + b) == Unskipped(skip, a) + Unskipped(skip, b)
  {
    if b == [] {
      assert a + b == a;
    } else {
      assert (a + b)[..|a + b| - 1] == a + b[..|b| - 1];
      UnskippedAppend(skip, a, b[..|b| - 1]);
    }
  }

  lemma UnskippedSnoc(skip: Skip, awards: seq<Award>, a: Award)
    ensures Unskipped(skip, awards + [a]) ==
            if Skipped(skip, a.target) then Unskipped(skip, awards) else Unskipped(skip, awards) + [a]
  {
  }

  lemma {:induction false} SkipUserTargets(u: User, skip: Skip, n: nat)
    requires n <= TARGET_COUNT
    ensures PickUpTo(u, skip, n) == Unskipped(skip, PickUpTo(u, NO_SKIP, n))
  {
    if n > 0 {
      SkipUserTargets(u, skip, n - 1);
      UnskippedSnoc(skip, PickUpTo(u, NO_SKIP, n - 1), Award(TargetAt(n - 1), u.id));
    }
  }

  lemma {:induction false} SkipAwards(users: seq<User>, skip: Skip)
    ensures AllAwards(users, skip) == Unskipped(skip, AllAwards(users, NO_SKIP))
  {
    if users != [] {
      var front, last := users[..|users| - 1], users[|users| - 1];
      SkipAwards(front, skip);
      SkipUserTargets(last, skip, TARGET_COUNT);
      UnskippedAppend(skip, AllAwards(front, NO_SKIP), UserAwards(last, NO_SKIP));
    }
  }

  /** A grant's resource type tells whether its target was skipped. */
  lemma SyncedTarget(workspace: Resource, a: Award, skip: Skip)
    requires workspace.id.resourceType == WORKSPACE
    ensures Synced(skip, GrantFor(workspace, a)) <==> !Skipped(skip, a.target)
  {
  }

  lemma {:induction false} SyncedAwards(workspace: Resource, awards: seq<Award>, skip: Skip)
    requires workspace.id.resourceType == WORKSPACE
    ensures GrantsOf(workspace, Unskipped(skip, awards)) == SyncedOnly(skip, GrantsOf(workspace, awards))
  {
    if awards != [] {
      var front, last := awards[..|awards| - 1], awards[|awards| - 1];
      assert awards == front + [last];
      SyncedAwards(workspace, front, skip);
      SyncedAward(workspace, front, last, skip);
    } else {
      assert GrantsOf(workspace, awards) == [];
    }
  }

  lemma SyncedAward(workspace: Resource, front: seq<Award>, last: Award, skip: Skip)
    requires workspace.id.resourceType == WORKSPACE
    requires GrantsOf(workspace, Unskipped(skip, front)) == SyncedOnly(skip, GrantsOf(workspace, front))
    ensures GrantsOf(workspace, Unskipped(skip, front + [last])) == SyncedOnly(skip, GrantsOf(workspace, front + [last]))
  {
    SyncedTarget(workspace, last, skip);
    UnskippedSnoc(skip, front, last);
    GrantsOfSnoc(workspace, front, last);
    GrantsOfSnoc(workspace, Unskipped(skip, front), last);
    SyncedOnlySnoc(skip, GrantsOf(workspace, front), GrantFor(workspace, last));
  }

  lemma GrantsOfSnoc(workspace: Resource, awards: seq<Award>, last: Award)
    ensures GrantsOf(workspace, awards + [last]) == GrantsOf(workspace, awards) + [GrantFor(workspace, last)]
  {
  }

  lemma SyncedOnlySnoc(skip: Skip, gs: seq<Grant>, last: Grant)
    ensures SyncedOnly(skip, gs + [last]) == if Synced(skip, last) then SyncedOnly(skip, gs) + [last] else SyncedOnly(skip, gs)
  {
    assert (gs + [last])[..|gs|] == gs;
  }

  /** Each switch is a filter: what is emitted with it is what is emitted without it, in the same order,
      less the grants on resources of the skipped type. */
  lemma SkipIsFilter(workspace: Resource, users: seq<User>, skip: Skip)
    requires workspace.id.resourceType == WORKSPACE
    ensures GrantsOf(workspace, AllAwards(users, skip)) == SyncedOnly(skip, GrantsOf(workspace, AllAwards(users, NO_SKIP)))
  {
    SkipAwards(users, skip);
    SyncedAwards(workspace, AllAwards(users, NO_SKIP), skip);
  }

  // ----- What is emitted

  /** How often an award is given. */
  ghost function Times(awards: seq<Award>, a: Award): nat {
    if awards == [] then 0 else Times(awards[..|awards| - 1], a) + if awards[|awards| - 1] == a then 1 else 0
  }

  lemma {:induction false} TimesAppend(x: seq<Award>, y: seq<Award>, a: Award)
    ensures Times(x + y, a) == Times(x, a) + Times(y, a)
  {
    if y == [] {
      assert x + y == x;
    } else {
      assert (x + y)[..|x + y| - 1] == x + y[..|y| - 1];
      TimesAppend(x, y[..|y| - 1], a);
    }
  }

  lemma TimesSnoc(x: seq<Award>, last: Award, a: Award)
    ensures Times(x + [last], a) == Times(x, a) + if last == a then 1 else 0
  {
  }

  /** Whether a user gets an award. */
  ghost predicate Earns(u: User, skip: Skip, a: Award) {
    !u.isStranger && a.userID == u.id && Entitled(u, a.target) && !Skipped(skip, a.target)
  }

  /** `k` is the place of a target among all targets. */
  ghost predicate PlaceOf(t: Target, k: nat) {
    forall m :: 0 <= m < TARGET_COUNT ==> (TargetAt(m) == t <==> m == k)
  }

  lemma EveryTargetHasAPlace(t: Target)
    ensures PlaceOf(t, IndexOf(t))
  {
    forall m | 0 <= m < TARGET_COUNT ensures TargetAt(m) == t <==> m == IndexOf(t) {
      IndexExact(t, m);
    }
  }

  ghost function TimesUpTo(u: User, skip: Skip, n: nat, a: Award): nat
    requires n <= TARGET_COUNT
  {
    Times(PickUpTo(u, skip, n), a)
  }

  lemma {:induction false} PickedExactly(u: User, skip: Skip, n: nat, a: Award, k: nat, earns: bool)
    requires !u.isStranger && n <= TARGET_COUNT && PlaceOf(a.target, k)
    requires earns == Earns(u, skip, a)
    ensures TimesUpTo(u, skip, n, a) == if earns && k < n then 1 else 0
  {
    if n == 0 {
      assert PickUpTo(u, skip, 0) == [];
    } else {
      PickedExactly(u, skip, n - 1, a, k, earns);
      PickedTimes(u, skip, n - 1, a, k, earns);
    }
  }

  lemma PickedTimes(u: User, skip: Skip, n: nat, a: Award, k: nat, earns: bool)
    requires !u.isStranger && n < TARGET_COUNT && PlaceOf(a.target, k)
    requires earns == Earns(u, skip, a)
    ensures TimesUpTo(u, skip, n + 1, a) == TimesUpTo(u, skip, n, a) + if earns && n == k then 1 else 0
  {
    TimesSnoc(PickUpTo(u, skip, n), Award(TargetAt(n), u.id), a);
    assert TargetAt(n) == a.target <==> n == k;
  }

  /** How many of the users get an award. */
  ghost function Earners(users: seq<User>, skip: Skip, a: Award): nat {
    if users == [] then 0
    else Earners(users[..|users| - 1], skip, a) + if Earns(users[|users| - 1], skip, a) then 1 else 0
  }

  /** Every award is given exactly once for every user who earns it: to no stranger, for nothing the flags
      do not entitle to, and for nothing skipped. */
  lemma {:induction false} AwardedExactly(users: seq<User>, skip: Skip, a: Award)
    ensures Times(AllAwards(users, skip), a) == Earners(users, skip, a)
  {
    if users != [] {
      var front, last := users[..|users| - 1], users[|users| - 1];
      AwardedExactly(front, skip, a);
      TimesAppend(AllAwards(front, skip), UserAwards(last, skip), a);
      if !last.isStranger {
        EveryTargetHasAPlace(a.target);
        PickedExactly(last, skip, TARGET_COUNT, a, IndexOf(a.target), Earns(last, skip, a));
      }
    }
  }

  ghost predicate DistinctIds(users: seq<User>) {
    forall i, j :: 0 <= i < j < |users| ==> users[i].id != users[j].id
  }

  lemma {:induction false} EarnersWithId(users: seq<User>, skip: Skip, a: Award)
    requires DistinctIds(users)
    ensures Earners(users, skip, a) == if exists u :: u in users && Earns(u, skip, a) then 1 else 0
  {
    if users != [] {
      var front, last := users[..|users| - 1], users[|users| - 1];
      EarnersWithId(front, skip, a);
      assert users == front + [last];
      if Earns(last, skip, a) {
        forall u | u in front ensures !Earns(u, skip, a) {
          var i :| 0 <= i < |front| && front[i] == u;
          assert users[i] == u;
        }
      }
    }
  }

  /** Distinct user IDs give distinct awards. */
  lemma AwardsDistinct(users: seq<User>, skip: Skip, a: Award)
    requires DistinctIds(users)
    ensures Times(AllAwards(users, skip), a) == if exists u :: u in users && Earns(u, skip, a) then 1 else 0
  {
    AwardedExactly(users, skip, a);
    EarnersWithId(users, skip, a);
  }

  // ----- Conservation and exclusivity

  ghost function Memberships(awards: seq<Award>): nat {
    if awards == [] then 0 else Memberships(awards[..|awards| - 1]) + if awards[|awards| - 1].target.Membership? then 1 else 0
  }

  lemma {:induction false} MembershipsAppend(a: seq<Award>, b: seq<Award>)
    ensures Memberships(a + b) == Memberships(a) + Memberships(b)
  {
    if b == [] {
      assert a + b == a;
    } else {
      assert (a + b)[..|a + b| - 1] == a + b[..|b| - 1];
      MembershipsAppend(a, b[..|b| - 1]);
    }
  }

  lemma {:induction false} MembershipsPicked(u: User, skip: Skip, n: nat)
    requires n <= TARGET_COUNT
    ensures Memberships(PickUpTo(u, skip, n)) == if IndexOf(Membership) < n then 1 else 0
  {
    if n > 0 {
      MembershipsPicked(u, skip, n - 1);
      MembershipsAppend(PickUpTo(u, skip, n - 1), [Award(TargetAt(n - 1), u.id)]);
      IndexExact(Membership, n - 1);
    }
  }

  ghost function NonStrangers(users: seq<User>): nat {
    if users == [] then 0
    else NonStrangers(users[..|users| - 1]) + if users[|users| - 1].isStranger then 0 else 1
  }

  /** Whatever the switches, the workspace memberships number exactly the users who are no strangers. */
  lemma {:induction false} MembershipsConserved(users: seq<User>, skip: Skip)
    ensures Memberships(AllAwards(users, skip)) == NonStrangers(users)
  {
    if users != [] {
      var front, last := users[..|users| - 1], users[|users| - 1];
      MembershipsConserved(front, skip);
      MembershipsAppend(AllAwards(front, skip), UserAwards(last, skip));
      MembershipsPicked(last, skip, TARGET_COUNT);
    }
  }

  /** Nobody gets both guest roles, and the member role never comes with a guest, invited or bot role. */
  lemma RolesExclusive(users: seq<User>, skip: Skip, id: string, r: Role, s: Role)
    requires DistinctIds(users)
    requires r in {SingleChannelGuest, Member} && s in {MultiChannelGuest, SingleChannelGuest, InvitedMember, Bot} && r != s
    requires r == SingleChannelGuest ==> s == MultiChannelGuest
    ensures Times(AllAwards(users, skip), Award(InWorkspace(r), id)) == 0
            || Times(AllAwards(users, skip), Award(InWorkspace(s), id)) == 0
  {
    AwardsDistinct(users, skip, Award(InWorkspace(r), id));
    AwardsDistinct(users, skip, Award(InWorkspace(s), id));
    if u, v :| u in users && v in users && Earns(u, skip, Award(InWorkspace(r), id)) && Earns(v, skip, Award(InWorkspace(s), id)) {
      SameIdSameUser(users, u, v);
    }
  }

  lemma SameIdSameUser(users: seq<User>, u: User, v: User)
    requires DistinctIds(users) && u in users && v in users && u.id == v.id
    ensures u == v
  {
  }

  lemma PickedNext(u: User, skip: Skip, n: nat)
    requires n < TARGET_COUNT
    ensures |PickUpTo(u, skip, n + 1)| <= |PickUpTo(u, skip, n)| + if Entitled(u, TargetAt(n)) then 1 else 0
  {
  }

  lemma {:induction false} PickedAtMost(u: User, skip: Skip, m: nat, n: nat)
    requires m <= n <= TARGET_COUNT
    ensures |PickUpTo(u, skip, n)| <= |PickUpTo(u, skip, m)| + n - m
  {
    if m < n {
      PickedAtMost(u, skip, m, n - 1);
      PickedNext(u, skip, n - 1);
    }
  }

  /** Of the guest roles, the invited role, the member role and the bot role nobody gets more than three. */
  lemma AtMostThree(u: User, skip: Skip)
    ensures |PickUpTo(u, skip, 8)| <= |PickUpTo(u, skip, 3)| + 3
  {
    PickedNext(u, skip, 3);
    PickedNext(u, skip, 4);
    PickedNext(u, skip, 5);
    PickedNext(u, skip, 6);
    PickedNext(u, skip, 7);
  }

  /** Nobody gets more than ten grants. */
  lemma AtMostTen(u: User, skip: Skip)
    ensures |UserAwards(u, skip)| <= 10
  {
    PickedAtMost(u, skip, 0, 3);
    AtMostThree(u, skip);
    PickedAtMost(u, skip, 8, TARGET_COUNT);
  }

  // ----- Grant IDs

  lemma Cancel(p: string, x: string, y: string)
    requires p + x == p + y
    ensures x == y
  {
    assert x == (p + x)[|p|..] && y == (p + y)[|p|..];
  }

  /** The part before the first colon, and what follows it. */
  lemma SameHead(a: string, x: string, b: string, y: string)
    requires ':' !in a && ':' !in b && a + ":" + x == b + ":" + y
    ensures a == b && x == y
  {
    SplitHead(a, x, ':');
    SplitHead(b, y, ':');
    assert Split(a + ":" + x, ':')[0] == a && Split(b + ":" + y, ':')[0] == b;
    Cancel(a + ":", x, y);
  }

  /** What follows the resource type in a grant ID. */
  ghost function AfterType(workspace: Resource, a: Award): string {
    match a.target
    case InWorkspace(role) => workspace.id.resource + ":" + (role.Id() + ":" + ("assigned:user:" + a.userID))
    case InOrganization(role) => role.Id() + ":" + ("assigned:user:" + a.userID)
    case Membership => workspace.id.resource + ":" + ("member:user:" + a.userID)
  }

  /** A grant's ID, regrouped: the same characters whatever the resource is called. */
  lemma GrantIdTail(resource: Resource, permission: string, userID: string)
    ensures NewGrant(resource, permission, ResourceId(USER, userID)).id
            == resource.id.resourceType + ":" + (resource.id.resource + ":" + (permission + (":" + USER + ":" + userID)))
  {
  }

  lemma PermissionTails(userID: string)
    ensures ROLE_ASSIGNMENT_ENTITLEMENT + (":" + USER + ":" + userID) == "assigned:user:" + userID
    ensures MEMBER_ENTITLEMENT + (":" + USER + ":" + userID) == "member:user:" + userID
  {
    assert "assigned" + ":" + "user" + ":" == "assigned:user:";
    assert "member" + ":" + "user" + ":" == "member:user:";
  }

  lemma WorkspaceRoleIdShape(workspace: string, role: string, rest: string)
    ensures workspace + ":" + role + ":" + rest == workspace + ":" + (role + ":" + rest)
  {
  }

  lemma GrantIdShape(workspace: Resource, a: Award)
    requires workspace.id.resourceType == WORKSPACE
    ensures GrantFor(workspace, a).id == TargetResource(workspace, a.target).id.resourceType + ":" + AfterType(workspace, a)
  {
    PermissionTails(a.userID);
    match a.target
    case InWorkspace(role) =>
      GrantIdTail(TargetResource(workspace, a.target), ROLE_ASSIGNMENT_ENTITLEMENT, a.userID);
      WorkspaceRoleIdShape(workspace.id.resource, role.Id(), "assigned:user:" + a.userID);
    case InOrganization(role) =>
      GrantIdTail(TargetResource(workspace, a.target), ROLE_ASSIGNMENT_ENTITLEMENT, a.userID);
    case Membership =>
      GrantIdTail(workspace, MEMBER_ENTITLEMENT, a.userID);
  }

  lemma OrganizationIds(role: OrganizationRole)
    ensures ':' !in role.Id() && |role.Id()| == match role case OrganizationPrimaryOwner => 26 case _ => 18
    ensures role.Id()[13] == match role case OrganizationPrimaryOwner => 'p' case OrganizationOwner => 'o' case OrganizationAdmin => 'a'
  {
  }

  lemma SameRoleSameUser(workspace: string, r: Role, u: string, s: Role, v: string)
    requires workspace + ":" + (r.Id() + ":" + ("assigned:user:" + u)) == workspace + ":" + (s.Id() + ":" + ("assigned:user:" + v))
    ensures r == s && u == v
  {
    Cancel(workspace + ":", r.Id() + ":" + ("assigned:user:" + u), s.Id() + ":" + ("assigned:user:" + v));
    RoleIds(r);
    RoleIds(s);
    SameHead(r.Id(), "assigned:user:" + u, s.Id(), "assigned:user:" + v);
    Cancel("assigned:user:", u, v);
  }

  lemma SameOrganizationRoleSameUser(r: OrganizationRole, u: string, s: OrganizationRole, v: string)
    requires r.Id() + ":" + ("assigned:user:" + u) == s.Id() + ":" + ("assigned:user:" + v)
    ensures r == s && u == v
  {
    OrganizationIds(r);
    OrganizationIds(s);
    SameHead(r.Id(), "assigned:user:" + u, s.Id(), "assigned:user:" + v);
    Cancel("assigned:user:", u, v);
  }

  lemma SameMembershipSameUser(workspace: string, u: string, v: string)
    requires workspace + ":" + ("member:user:" + u) == workspace + ":" + ("member:user:" + v)
    ensures u == v
  {
    Cancel(workspace + ":", "member:user:" + u, "member:user:" + v);
    Cancel("member:user:", u, v);
  }

  /** Within a workspace, different awards have different grant IDs, whatever characters the user IDs and
      the workspace ID contain. */
  lemma GrantIdsDistinct(workspace: Resource, a: Award, b: Award)
    requires workspace.id.resourceType == WORKSPACE
    requires GrantFor(workspace, a).id == GrantFor(workspace, b).id
    ensures a == b
  {
    GrantIdShape(workspace, a);
    GrantIdShape(workspace, b);
    var ta, tb := TargetResource(workspace, a.target).id.resourceType, TargetResource(workspace, b.target).id.resourceType;
    SameHead(ta, AfterType(workspace, a), tb, AfterType(workspace, b));
    assert |ta| == if a.target.InWorkspace? then 13 else if a.target.InOrganization? then 14 else 9;
    assert |tb| == if b.target.InWorkspace? then 13 else if b.target.InOrganization? then 14 else 9;
    if a.target.InWorkspace? {
      SameRoleSameUser(workspace.id.resource, a.target.role, a.userID, b.target.role, b.userID);
    } else if a.target.InOrganization? {
      SameOrganizationRoleSameUser(a.target.orgRole, a.userID, b.target.orgRole, b.userID);
    } else {
      SameMembershipSameUser(workspace.id.resource, a.userID, b.userID);
    }
  }

  // ----- Which flag earns which grant

  ghost predicate Emits(gs: seq<Grant>, id: string) {
    exists k :: 0 <= k < |gs| && gs[k].id == id
  }

  lemma {:induction false} TimesPositive(awards: seq<Award>, a: Award)
    ensures Times(awards, a) > 0 <==> exists k :: 0 <= k < |awards| && awards[k] == a
  {
    if awards != [] {
      var front, last := awards[..|awards| - 1], awards[|awards| - 1];
      TimesPositive(front, a);
      if k :| 0 <= k < |front| && front[k] == a {
        assert awards[k] == a;
      }
      if k :| 0 <= k < |awards| && awards[k] == a && last != a {
        assert front[k] == a;
      }
    }
  }

  /** A grant ID occurs among what is emitted exactly when its award is given. */
  lemma EmittedIsAwarded(workspace: Resource, awards: seq<Award>, a: Award)
    requires workspace.id.resourceType == WORKSPACE
    ensures Emits(GrantsOf(workspace, awards), GrantFor(workspace, a).id) <==> Times(awards, a) > 0
  {
    var gs := GrantsOf(workspace, awards);
    TimesPositive(awards, a);
    if k :| 0 <= k < |gs| && gs[k].id == GrantFor(workspace, a).id {
      GrantIdsDistinct(workspace, awards[k], a);
    }
    if k :| 0 <= k < |awards| && awards[k] == a {
      assert gs[k].id == GrantFor(workspace, a).id;
    }
  }

  lemma EmittedExactly(workspace: Resource, users: seq<User>, skip: Skip, u: User, t: Target)
    requires workspace.id.resourceType == WORKSPACE && DistinctIds(users) && u in users
    ensures Emits(GrantsOf(workspace, AllAwards(users, skip)), GrantFor(workspace, Award(t, u.id)).id)
            <==> !u.isStranger && Entitled(u, t) && !Skipped(skip, t)
  {
    var a := Award(t, u.id);
    EmittedIsAwarded(workspace, AllAwards(users, skip), a);
    AwardsDistinct(users, skip, a);
    if v :| v in users && Earns(v, skip, a) {
      SameIdSameUser(users, u, v);
    }
  }

  function WorkspaceRoleGrantId(workspace: string, role: string, user: string): string {
    "workspaceRole:" + workspace + ":" + role + ":assigned:user:" + user
  }

  function OrganizationRoleGrantId(role: string, user: string): string {
    "enterpriseRole:" + role + ":assigned:user:" + user
  }

  function MembershipGrantId(workspace: string, user: string): string {
    "workspace:" + workspace + ":member:user:" + user
  }

  /** Grant IDs in full. */
  lemma GrantIdInFull(workspace: Resource, a: Award)
    requires workspace.id.resourceType == WORKSPACE
    ensures GrantFor(workspace, a).id ==
            match a.target
            case InWorkspace(role) => WorkspaceRoleGrantId(workspace.id.resource, role.Id(), a.userID)
            case InOrganization(role) => OrganizationRoleGrantId(role.Id(), a.userID)
            case Membership => MembershipGrantId(workspace.id.resource, a.userID)
  {
    GrantIdShape(workspace, a);
    match a.target
    case InWorkspace(role) => WorkspaceRoleIdInFull(workspace.id.resource, role.Id(), a.userID);
    case InOrganization(role) => OrganizationRoleIdInFull(role.Id(), a.userID);
    case Membership => MembershipIdInFull(workspace.id.resource, a.userID);
  }

  lemma WorkspaceRoleIdInFull(ws: string, role: string, user: string)
    ensures WorkspaceRoleGrantId(ws, role, user)
            == "workspaceRole" + ":" + (ws + ":" + (role + ":" + ("assigned:user:" + user)))
  {
    assert "workspaceRole:" == "workspaceRole" + ":" && ":assigned:user:" == ":" + "assigned:user:";
  }

  lemma OrganizationRoleIdInFull(role: string, user: string)
    ensures OrganizationRoleGrantId(role, user) == "enterpriseRole" + ":" + (role + ":" + ("assigned:user:" + user))
  {
    assert "enterpriseRole:" == "enterpriseRole" + ":" && ":assigned:user:" == ":" + "assigned:user:";
  }

  lemma MembershipIdInFull(ws: string, user: string)
    ensures MembershipGrantId(ws, user) == "workspace" + ":" + (ws + ":" + ("member:user:" + user))
  {
    assert "workspace:" == "workspace" + ":" && ":member:user:" == ":" + "member:user:";
  }

  lemma WorkspaceRoleEmitted(workspace: Resource, users: seq<User>, u: User, role: Role, id: string)
    requires workspace.id.resourceType == WORKSPACE && DistinctIds(users) && u in users && id == role.Id()
    ensures Emits(GrantsOf(workspace, AllAwards(users, NO_SKIP)), WorkspaceRoleGrantId(workspace.id.resource, id, u.id))
            <==> !u.isStranger && Entitled(u, InWorkspace(role))
  {
    EmittedExactly(workspace, users, NO_SKIP, u, InWorkspace(role));
    GrantIdInFull(workspace, Award(InWorkspace(role), u.id));
  }

  lemma OrganizationRoleEmitted(workspace: Resource, users: seq<User>, u: User, role: OrganizationRole, id: string)
    requires workspace.id.resourceType == WORKSPACE && DistinctIds(users) && u in users && id == role.Id()
    ensures Emits(GrantsOf(workspace, AllAwards(users, NO_SKIP)), OrganizationRoleGrantId(id, u.id))
            <==> !u.isStranger && Entitled(u, InOrganization(role))
  {
    EmittedExactly(workspace, users, NO_SKIP, u, InOrganization(role));
    GrantIdInFull(workspace, Award(InOrganization(role), u.id));
  }

  /** Which workspace-role grants a user's flags earn, by grant ID. */
  lemma OwnerFlagsDecide(workspace: Resource, users: seq<User>, u: User)
    requires workspace.id.resourceType == WORKSPACE && DistinctIds(users) && u in users
    ensures var gs, ws := GrantsOf(workspace, AllAwards(users, NO_SKIP)), workspace.id.resource;
            && (Emits(gs, WorkspaceRoleGrantId(ws, "primary_owner", u.id)) <==> !u.isStranger && u.isPrimaryOwner)
            && (Emits(gs, WorkspaceRoleGrantId(ws, "owner", u.id)) <==> !u.isStranger && u.isOwner)
            && (Emits(gs, WorkspaceRoleGrantId(ws, "admin", u.id)) <==> !u.isStranger && u.isAdmin)
  {
    WorkspaceRoleEmitted(workspace, users, u, PrimaryOwner, "primary_owner");
    WorkspaceRoleEmitted(workspace, users, u, Owner, "owner");
    WorkspaceRoleEmitted(workspace, users, u, Admin, "admin");
  }

  lemma GuestFlagsDecide(workspace: Resource, users: seq<User>, u: User)
    requires workspace.id.resourceType == WORKSPACE && DistinctIds(users) && u in users
    ensures var gs, ws := GrantsOf(workspace, AllAwards(users, NO_SKIP)), workspace.id.resource;
            && (Emits(gs, WorkspaceRoleGrantId(ws, "single_channel_guest", u.id)) <==>
                !u.isStranger && u.isRestricted && u.isUltraRestricted)
            && (Emits(gs, WorkspaceRoleGrantId(ws, "multi_channel_guest", u.id)) <==>
                !u.isStranger && u.isRestricted && !u.isUltraRestricted)
  {
    WorkspaceRoleEmitted(workspace, users, u, SingleChannelGuest, "single_channel_guest");
    WorkspaceRoleEmitted(workspace, users, u, MultiChannelGuest, "multi_channel_guest");
  }

  lemma MemberFlagsDecide(workspace: Resource, users: seq<User>, u: User)
    requires workspace.id.resourceType == WORKSPACE && DistinctIds(users) && u in users
    ensures var gs, ws := GrantsOf(workspace, AllAwards(users, NO_SKIP)), workspace.id.resource;
            && (Emits(gs, WorkspaceRoleGrantId(ws, "invited_member", u.id)) <==> !u.isStranger && u.isInvitedUser)
            && (Emits(gs, WorkspaceRoleGrantId(ws, "member", u.id)) <==>
                !u.isStranger && !u.isRestricted && !u.isUltraRestricted && !u.isInvitedUser && !u.isBot && !u.deleted)
            && (Emits(gs, WorkspaceRoleGrantId(ws, "bot", u.id)) <==> !u.isStranger && u.isBot)
  {
    WorkspaceRoleEmitted(workspace, users, u, InvitedMember, "invited_member");
    WorkspaceRoleEmitted(workspace, users, u, Member, "member");
    WorkspaceRoleEmitted(workspace, users, u, Bot, "bot");
  }

  /** Which organisation-role grants a user's flags earn, and who gets the membership. */
  lemma OrganizationFlagsDecide(workspace: Resource, users: seq<User>, u: User)
    requires workspace.id.resourceType == WORKSPACE && DistinctIds(users) && u in users
    ensures var gs, ws := GrantsOf(workspace, AllAwards(users, NO_SKIP)), workspace.id.resource;
            && (Emits(gs, OrganizationRoleGrantId("organization_primary_owner", u.id)) <==>
                !u.isStranger && u.enterprise.isPrimaryOwner)
            && (Emits(gs, OrganizationRoleGrantId("organization_owner", u.id)) <==> !u.isStranger && u.enterprise.isOwner)
            && (Emits(gs, OrganizationRoleGrantId("organization_admin", u.id)) <==> !u.isStranger && u.enterprise.isAdmin)
            && (Emits(gs, MembershipGrantId(ws, u.id)) <==> !u.isStranger)
  {
    OrganizationRoleEmitted(workspace, users, u, OrganizationPrimaryOwner, "organization_primary_owner");
    OrganizationRoleEmitted(workspace, users, u, OrganizationOwner, "organization_owner");
    OrganizationRoleEmitted(workspace, users, u, OrganizationAdmin, "organization_admin");
    EmittedExactly(workspace, users, NO_SKIP, u, Membership);
    GrantIdInFull(workspace, Award(Membership, u.id));
  }

  lemma {:induction false} SomeEarner(users: seq<User>, skip: Skip, a: Award)
    requires Earners(users, skip, a) > 0
    ensures exists u :: u in users && Earns(u, skip, a)
  {
    var front, last := users[..|users| - 1], users[|users| - 1];
    assert last in users;
    if !Earns(last, skip, a) {
      SomeEarner(front, skip, a);
      var u :| u in front && Earns(u, skip, a);
      assert u in users;
    }
  }

  /** A grant says who holds it: its principal is a listed user who is no stranger, and its ID is its
      entitlement's ID followed by that user. */
  ghost predicate HeldBy(g: Grant, u: User) {
    && !u.isStranger
    && g.principal == ResourceId("user", u.id)
    && g.id == g.entitlement.id + ":user:" + u.id
  }

  lemma EveryGrantIsHeld(workspace: Resource, users: seq<User>, skip: Skip, k: nat)
    requires k < |AllAwards(users, skip)|
    ensures exists u :: u in users && HeldBy(GrantsOf(workspace, AllAwards(users, skip))[k], u)
  {
    var awards := AllAwards(users, skip);
    var a := awards[k];
    TimesPositive(awards, a);
    AwardedExactly(users, skip, a);
    SomeEarner(users, skip, a);
    var u :| u in users && Earns(u, skip, a);
    GrantHolder(TargetResource(workspace, a.target),
                if a.target.Membership? then MEMBER_ENTITLEMENT else ROLE_ASSIGNMENT_ENTITLEMENT, u);
  }

  lemma GrantHolder(resource: Resource, permission: string, u: User)
    requires !u.isStranger
    ensures HeldBy(NewGrant(resource, permission, ResourceId(USER, u.id)), u)
  {
    assert ":" + USER + ":" == ":user:";
  }
}
