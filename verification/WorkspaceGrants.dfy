/** Deriving grants from the users of a workspace: workspace roles, organisation roles and the workspace
    membership itself, page by page. */
module WorkspaceGrants {
  import opened Resources
  import opened Text
  import opened EnterpriseRoles
  import opened WorkspaceRoles

  datatype EnterpriseFlags = EnterpriseFlags(isPrimaryOwner: bool, isOwner: bool, isAdmin: bool)

  datatype User = User(id: string, deleted: bool, isBot: bool, isAdmin: bool, isOwner: bool, isPrimaryOwner: bool,
                       isRestricted: bool, isUltraRestricted: bool, isStranger: bool, isInvitedUser: bool,
                       enterprise: EnterpriseFlags)

  /** The sync filter: which of the two role types are left out. */
  datatype Skip = Skip(workspaceRole: bool, enterpriseRole: bool)

  const NO_SKIP := Skip(false, false)

  // ----- What a user's flags entitle to

  datatype OrganizationRole = OrganizationPrimaryOwner | OrganizationOwner | OrganizationAdmin {
    function Id(): string {
      match this
      case OrganizationPrimaryOwner => ORGANIZATION_PRIMARY_OWNER_ID
      case OrganizationOwner => ORGANIZATION_OWNER_ID
      case OrganizationAdmin => ORGANIZATION_ADMIN_ID
    }

    function Name(): string {
      match this
      case OrganizationPrimaryOwner => "Organization primary owner"
      case OrganizationOwner => "Organization owner"
      case OrganizationAdmin => "Organization admin"
    }
  }

  /** What a grant can be for. */
  datatype Target = InWorkspace(role: Role) | InOrganization(orgRole: OrganizationRole) | Membership

  predicate Entitled(u: User, t: Target) {
    match t
    case InWorkspace(PrimaryOwner) => u.isPrimaryOwner
    case InWorkspace(Owner) => u.isOwner
    case InWorkspace(Admin) => u.isAdmin
    case InWorkspace(SingleChannelGuest) => u.isRestricted && u.isUltraRestricted
    case InWorkspace(MultiChannelGuest) => u.isRestricted && !u.isUltraRestricted
    case InWorkspace(InvitedMember) => u.isInvitedUser
    case InWorkspace(Member) => !u.isRestricted && !u.isUltraRestricted && !u.isInvitedUser && !u.isBot && !u.deleted
    case InWorkspace(Bot) => u.isBot
    case InOrganization(OrganizationPrimaryOwner) => u.enterprise.isPrimaryOwner
    case InOrganization(OrganizationOwner) => u.enterprise.isOwner
    case InOrganization(OrganizationAdmin) => u.enterprise.isAdmin
    case Membership => true
  }

  predicate Skipped(skip: Skip, t: Target) {
    (t.InWorkspace? && skip.workspaceRole) || (t.InOrganization? && skip.enterpriseRole)
  }

  function TargetResource(workspace: Resource, t: Target): Resource {
    match t
    case InWorkspace(role) =>
      Resource(ResourceId(WORKSPACE_ROLE, workspace.id.resource + ":" + role.Id()), role.Name(), Some(workspace.id))
    case InOrganization(role) => Resource(ResourceId(ENTERPRISE_ROLE, role.Id()), role.Name(), None)
    case Membership => workspace
  }

  /** A target together with the user who holds it. */
  datatype Award = Award(target: Target, userID: string)

  function GrantFor(workspace: Resource, a: Award): Grant {
    NewGrant(TargetResource(workspace, a.target),
             if a.target.Membership? then MEMBER_ENTITLEMENT else ROLE_ASSIGNMENT_ENTITLEMENT,
             ResourceId(USER, a.userID))
  }

  /** The grants that a list of awards is emitted as, one for one. */
  ghost function GrantsOf(workspace: Resource, awards: seq<Award>): (gs: seq<Grant>)
    ensures |gs| == |awards| && forall k :: 0 <= k < |awards| ==> gs[k] == GrantFor(workspace, awards[k])
  {
    seq(|awards|, i requires 0 <= i < |awards| => GrantFor(workspace, awards[i]))
  }

  lemma GrantsOfAppend(workspace: Resource, a: seq<Award>, b: seq<Award>)
    ensures GrantsOf(workspace, a + b) == GrantsOf(workspace, a) + GrantsOf(workspace, b)
  {
    var whole, parts := GrantsOf(workspace, a + b), GrantsOf(workspace, a) + GrantsOf(workspace, b);
    forall k | 0 <= k < |a + b| ensures whole[k] == parts[k] {
      if k < |a| {
        assert (a + b)[k] == a[k];
      } else {
        assert (a + b)[k] == b[k - |a|];
      }
    }
  }

  const TARGET_COUNT := 12

  /** Every target once, in the order in which a user's grants are emitted. */
  function TargetAt(n: nat): Target
    requires n < TARGET_COUNT
  {
    match n
    case 0 => InWorkspace(PrimaryOwner)
    case 1 => InWorkspace(Owner)
    case 2 => InWorkspace(Admin)
    case 3 => InWorkspace(SingleChannelGuest)
    case 4 => InWorkspace(MultiChannelGuest)
    case 5 => InWorkspace(InvitedMember)
    case 6 => InWorkspace(Member)
    case 7 => InWorkspace(Bot)
    case 8 => InOrganization(OrganizationPrimaryOwner)
    case 9 => InOrganization(OrganizationOwner)
    case 10 => InOrganization(OrganizationAdmin)
    case 11 => Membership
  }

  /** A user's awards among the first `n` targets. */
  ghost function PickUpTo(u: User, skip: Skip, n: nat): seq<Award>
    requires n <= TARGET_COUNT
  {
    if n == 0 then []
    else
      var before, t := PickUpTo(u, skip, n - 1), TargetAt(n - 1);
      if Entitled(u, t) && !Skipped(skip, t) then before + [Award(t, u.id)] else before
  }

  /** A user's awards: one for each target the flags entitle to, unless its type is skipped; none at all
      for a stranger. */
  ghost function UserAwards(u: User, skip: Skip): seq<Award> {
    if u.isStranger then [] else PickUpTo(u, skip, TARGET_COUNT)
  }

  ghost function AllAwards(users: seq<User>, skip: Skip): seq<Award> {
    if users == [] then []
    else AllAwards(users[..|users| - 1], skip) + UserAwards(users[|users| - 1], skip)
  }

  // ----- The source's loop

  lemma OrganizationRolesKnown(role: OrganizationRole)
    ensures EnterpriseRoleResource(ROLE_TABLES, role.Id())
            == Ok(Resource(ResourceId(ENTERPRISE_ROLE, role.Id()), role.Name(), None))
  {
  }

  lemma OrganizationIdsAreNotSystemIds(id: string)
    requires |id| > 4
    ensures id !in SYSTEM_ROLES
  {
  }

  /** The award for the next target, when it is earned. */
  lemma NextAward(workspace: Resource, u: User, skip: Skip, n: nat)
    requires n < TARGET_COUNT
    ensures var before, t := GrantsOf(workspace, PickUpTo(u, skip, n)), TargetAt(n);
            GrantsOf(workspace, PickUpTo(u, skip, n + 1)) ==
            if Entitled(u, t) && !Skipped(skip, t) then before + [GrantFor(workspace, Award(t, u.id))] else before
  {
  }

  /** What the source does when one of its flag tests succeeds: look the role up, build the grant, append. */
  method AppendWorkspaceRole(rv: seq<Grant>, roleID: string, workspace: Resource, user: User, ghost role: Role)
    returns (r: Result<seq<Grant>>)
    requires roleID == role.Id()
    ensures r == Ok(rv + [GrantFor(workspace, Award(InWorkspace(role), user.id))])
  {
    RoleIds(role);
    match RoleResource(roleID, workspace.id)
    case Err(e) => r := Err(e);
    case Ok(rr) => r := Ok(rv + [NewGrant(rr, ROLE_ASSIGNMENT_ENTITLEMENT, ResourceId(USER, user.id))]);
  }

  method AppendOrganizationRole(rv: seq<Grant>, roleID: string, workspace: Resource, user: User, ghost role: OrganizationRole)
    returns (r: Result<seq<Grant>>)
    requires roleID == role.Id()
    ensures r == Ok(rv + [GrantFor(workspace, Award(InOrganization(role), user.id))])
  {
    OrganizationRolesKnown(role);
    match EnterpriseRoleResource(ROLE_TABLES, roleID)
    case Err(e) => r := Err(e);
    case Ok(rr) => r := Ok(rv + [NewGrant(rr, ROLE_ASSIGNMENT_ENTITLEMENT, ResourceId(USER, user.id))]);
  }

  /** The workspace-role part of the loop body, up to the guest roles. */
  method OwnerAndGuestGrants(workspace: Resource, user: User, skip: Skip) returns (r: Result<seq<Grant>>)
    requires !skip.workspaceRole
    ensures r == Ok(GrantsOf(workspace, PickUpTo(user, skip, 5)))
  {
    r := Ok([]);
    if user.isPrimaryOwner {
      r := AppendWorkspaceRole(r.value, "primary_owner", workspace, user, PrimaryOwner);
    }
    NextAward(workspace, user, skip, 0);
    if user.isOwner {
      r := AppendWorkspaceRole(r.value, "owner", workspace, user, Owner);
    }
    NextAward(workspace, user, skip, 1);
    if user.isAdmin {
      r := AppendWorkspaceRole(r.value, "admin", workspace, user, Admin);
    }
    NextAward(workspace, user, skip, 2);
    if user.isRestricted {
      if user.isUltraRestricted {
        r := AppendWorkspaceRole(r.value, "single_channel_guest", workspace, user, SingleChannelGuest);
      } else {
        r := AppendWorkspaceRole(r.value, "multi_channel_guest", workspace, user, MultiChannelGuest);
      }
    }
    NextAward(workspace, user, skip, 3);
    NextAward(workspace, user, skip, 4);
  }

  /** The rest of the workspace roles. */
  method AppendMemberGrants(rv: seq<Grant>, workspace: Resource, user: User, skip: Skip) returns (r: Result<seq<Grant>>)
    requires !skip.workspaceRole && rv == GrantsOf(workspace, PickUpTo(user, skip, 5))
    ensures r == Ok(GrantsOf(workspace, PickUpTo(user, skip, 8)))
  {
    r := Ok(rv);
    if user.isInvitedUser {
      r := AppendWorkspaceRole(r.value, "invited_member", workspace, user, InvitedMember);
    }
    NextAward(workspace, user, skip, 5);
    if !user.isRestricted && !user.isUltraRestricted && !user.isInvitedUser && !user.isBot && !user.deleted {
      r := AppendWorkspaceRole(r.value, "member", workspace, user, Member);
    }
    NextAward(workspace, user, skip, 6);
    if user.isBot {
      r := AppendWorkspaceRole(r.value, "bot", workspace, user, Bot);
    }
    NextAward(workspace, user, skip, 7);
  }

  /** The organisation-role part, and the membership itself, which is never skipped. */
  method AppendEnterpriseGrants(rv: seq<Grant>, workspace: Resource, user: User, skip: Skip) returns (r: Result<seq<Grant>>)
    requires rv == GrantsOf(workspace, PickUpTo(user, skip, 8))
    ensures r == Ok(GrantsOf(workspace, PickUpTo(user, skip, 12)))
  {
    r := Ok(rv);
    if !skip.enterpriseRole {
      if user.enterprise.isPrimaryOwner {
        r := AppendOrganizationRole(r.value, "organization_primary_owner", workspace, user, OrganizationPrimaryOwner);
      }
      NextAward(workspace, user, skip, 8);
      if user.enterprise.isOwner {
        r := AppendOrganizationRole(r.value, "organization_owner", workspace, user, OrganizationOwner);
      }
      NextAward(workspace, user, skip, 9);
      if user.enterprise.isAdmin {
        r := AppendOrganizationRole(r.value, "organization_admin", workspace, user, OrganizationAdmin);
      }
    } else {
      NextAward(workspace, user, skip, 8);
      NextAward(workspace, user, skip, 9);
    }
    NextAward(workspace, user, skip, 10);
    r := Ok(r.value + [NewGrant(workspace, MEMBER_ENTITLEMENT, ResourceId(USER, user.id))]);
    NextAward(workspace, user, skip, 11);
  }

  lemma {:induction false} NothingBeforeOrganization(u: User, skip: Skip, n: nat)
    requires skip.workspaceRole && n <= 8
    ensures PickUpTo(u, skip, n) == []
  {
    if n > 0 {
      NothingBeforeOrganization(u, skip, n - 1);
    }
  }

  /** One page of users. */
  method Grants(workspace: Resource, users: seq<User>, skip: Skip) returns (r: Result<seq<Grant>>)
    ensures r == Ok(GrantsOf(workspace, AllAwards(users, skip)))
  {
    var rv: seq<Grant> := [];
    for k := 0 to |users|
      invariant rv == GrantsOf(workspace, AllAwards(users[..k], skip))
    {
      var user := users[k];
      assert users[..k + 1][..k] == users[..k];
      if user.isStranger {
        continue;
      }
      var mine: Result<seq<Grant>> := Ok([]);
      if !skip.workspaceRole {
        mine := OwnerAndGuestGrants(workspace, user, skip);
        mine := AppendMemberGrants(mine.value, workspace, user, skip);
      } else {
        NothingBeforeOrganization(user, skip, 8);
      }
      mine := AppendEnterpriseGrants(mine.value, workspace, user, skip);
      GrantsOfAppend(workspace, AllAwards(users[..k], skip), UserAwards(user, skip));
      rv := rv + mine.value;
    }
    assert users[..|users|] == users;
    r := Ok(rv);
  }
}
