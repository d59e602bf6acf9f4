/** Workspace roles: their resources, the IDs they travel in, and provisioning. */
module WorkspaceRoles {
  import opened Resources
  import opened Text

  // ----- The role table

  datatype Role =
    PrimaryOwner | Owner | Admin | MultiChannelGuest | SingleChannelGuest | InvitedMember | Bot | Member
  {
    function Id(): string {
      match this
      case PrimaryOwner => "primary_owner"
      case Owner => "owner"
      case Admin => "admin"
      case MultiChannelGuest => "multi_channel_guest"
      case SingleChannelGuest => "single_channel_guest"
      case InvitedMember => "invited_member"
      case Bot => "bot"
      case Member => "member"
    }

    function Name(): string {
      match this
      case PrimaryOwner => "Primary Owner"
      case Owner => "Owner"
      case Admin => "Admin"
      case MultiChannelGuest => "Multi Channel Guest"
      case SingleChannelGuest => "Single Channel Guest"
      case InvitedMember => "Invited member"
      case Bot => "Bot"
      case Member => "Member"
    }
  }

  const ROLES: set<Role> :=
    {PrimaryOwner, Owner, Admin, MultiChannelGuest, SingleChannelGuest, InvitedMember, Bot, Member}

  /** Looking a role ID up in the table. */
  function RoleOf(roleID: string): (r: Option<Role>)
    ensures r.Some? ==> r.value.Id() == roleID
  {
    if roleID == PrimaryOwner.Id() then Some(PrimaryOwner)
    else if roleID == Owner.Id() then Some(Owner)
    else if roleID == Admin.Id() then Some(Admin)
    else if roleID == MultiChannelGuest.Id() then Some(MultiChannelGuest)
    else if roleID == SingleChannelGuest.Id() then Some(SingleChannelGuest)
    else if roleID == InvitedMember.Id() then Some(InvitedMember)
    else if roleID == Bot.Id() then Some(Bot)
    else if roleID == Member.Id() then Some(Member)
    else None
  }

  /** Role IDs are distinct and none of them has a colon. */
  lemma RoleIds(role: Role)
    ensures RoleOf(role.Id()) == Some(role)
    ensures ':' !in role.Id() && role.Id() != "" && role in ROLES
  {
  }

  function RoleResource(roleID: string, workspace: ResourceId): Result<Resource> {
    match RoleOf(roleID)
    case None => Err("invalid roleID: " + roleID)
    case Some(role) =>
      Ok(Resource(ResourceId(WORKSPACE_ROLE, workspace.resource + ":" + roleID), role.Name(), Some(workspace)))
  }

  predicate ListedAs(workspace: string, id: string, name: string) {
    RoleResource(id, ResourceId("workspace", workspace))
    == Ok(Resource(ResourceId("workspaceRole", workspace + ":" + id), name, Some(ResourceId("workspace", workspace))))
  }

  lemma RoleListedAs(workspace: string, role: Role, id: string, name: string)
    requires id == role.Id() && name == role.Name()
    ensures ListedAs(workspace, id, name)
  {
    RoleIds(role);
  }

  /** The table spelled out: the ID and the name under which each role of a workspace is listed. */
  lemma RoleTable(workspace: string)
    ensures ListedAs(workspace, "primary_owner", "Primary Owner")
    ensures ListedAs(workspace, "owner", "Owner")
    ensures ListedAs(workspace, "admin", "Admin")
    ensures ListedAs(workspace, "multi_channel_guest", "Multi Channel Guest")
    ensures ListedAs(workspace, "single_channel_guest", "Single Channel Guest")
    ensures ListedAs(workspace, "invited_member", "Invited member")
    ensures ListedAs(workspace, "bot", "Bot")
    ensures ListedAs(workspace, "member", "Member")
  {
    RoleListedAs(workspace, PrimaryOwner, "primary_owner", "Primary Owner");
    RoleListedAs(workspace, Owner, "owner", "Owner");
    RoleListedAs(workspace, Admin, "admin", "Admin");
    RoleListedAs(workspace, MultiChannelGuest, "multi_channel_guest", "Multi Channel Guest");
    RoleListedAs(workspace, SingleChannelGuest, "single_channel_guest", "Single Channel Guest");
    RoleListedAs(workspace, InvitedMember, "invited_member", "Invited member");
    RoleListedAs(workspace, Bot, "bot", "Bot");
    RoleListedAs(workspace, Member, "member", "Member");
  }

  ghost predicate KeysIn(order: seq<Role>, ids: seq<string>) {
    && multiset(order) == multiset(ROLES)
    && |ids| == |order| && forall k :: 0 <= k < |ids| ==> ids[k] == order[k].Id()
  }

  /** The table's keys, in whatever order the map yields them. */
  method RoleKeys() returns (ids: seq<string>)
    ensures exists order :: KeysIn(order, ids)
  {
    var todo := ROLES;
    ids := [];
    ghost var order: seq<Role> := [];
    while todo != {}
      invariant multiset(order) + multiset(todo) == multiset(ROLES)
      invariant |ids| == |order| && forall k :: 0 <= k < |ids| ==> ids[k] == order[k].Id()
    {
      var role :| role in todo;
      ids, order, todo := ids + [role.Id()], order + [role], todo - {role};
    }
    assert KeysIn(order, ids);
  }

  /** `listing` is the resources of all roles under a workspace, in this order. */
  ghost predicate RolesListedIn(order: seq<Role>, workspace: ResourceId, listing: seq<Resource>) {
    && multiset(order) == multiset(ROLES)
    && |listing| == |order| && forall k :: 0 <= k < |order| ==> Ok(listing[k]) == RoleResource(order[k].Id(), workspace)
  }

  /** The roles listed under a workspace, in the order in which the map yielded them. */
  method ListRoles(parent: Option<ResourceId>) returns (r: Result<seq<Resource>>)
    ensures parent.None? ==> r == Ok([])
    ensures parent.Some? ==> r.Ok? && exists order :: RolesListedIn(order, parent.value, r.value)
  {
    if parent.None? {
      return Ok([]);
    }
    var ids := RoleKeys();
    ghost var order :| KeysIn(order, ids);
    var toResource := (roleID: string, p: Option<ResourceId>) =>
      match p
      case None => Err("no parent")
      case Some(workspace) => RoleResource(roleID, workspace);
    r := MakeResourceList(ids, parent, toResource);
    forall k | 0 <= k < |ids| ensures Converted(ids, parent, toResource)[k].Ok? {
      RoleIds(order[k]);
    }
    CollectOk(Converted(ids, parent, toResource));
    assert RolesListedIn(order, parent.value, r.value);
  }

  // ----- IDs

  function ParseID(id: string): Result<string> {
    var parts := Split(id, ':');
    if |parts| < 2 then Err("invalid ID format: " + id) else Ok(parts[1])
  }

  function ParseRole(id: string): Result<string> {
    var parts := Split(id, ':');
    if |parts| < 3 then Err("invalid role ID format: " + id) else Ok(parts[2])
  }

  /** An ID is refused exactly when it has too few colons for the part that is asked for. */
  lemma ParseErrors(id: string)
    ensures ParseID(id).Err? <==> multiset(id)[':'] < 1
    ensures ParseRole(id).Err? <==> multiset(id)[':'] < 2
  {
    SplitCount(id, ':');
  }

  /** Second and third part of an ID that starts with three colon-free parts. */
  lemma SplitThree(a: string, b: string, c: string, rest: string)
    requires ':' !in a && ':' !in b && ':' !in c
    ensures var parts := Split(a + ":" + b + ":" + c + ":" + rest, ':');
            |parts| >= 4 && parts[0] == a && parts[1] == b && parts[2] == c && parts[3..] == Split(rest, ':')
  {
    var r1 := c + ":" + rest;
    var r2 := b + ":" + r1;
    assert a + ":" + b + ":" + c + ":" + rest == a + ":" + r2;
    SplitHead(c, rest, ':');
    SplitHead(b, r1, ':');
    SplitHead(a, r2, ':');
    assert Split(r2, ':') == [b] + ([c] + Split(rest, ':'));
  }

  ghost function RoleEntitlement(workspace: string, role: Role): Entitlement {
    RoleIds(role);
    NewEntitlement(RoleResource(role.Id(), ResourceId(WORKSPACE, workspace)).value, ROLE_ASSIGNMENT_ENTITLEMENT)
  }

  ghost function RoleGrant(workspace: string, role: Role, user: string): Grant {
    RoleIds(role);
    NewGrant(RoleResource(role.Id(), ResourceId(WORKSPACE, workspace)).value, ROLE_ASSIGNMENT_ENTITLEMENT,
             ResourceId(USER, user))
  }

  lemma PartsRoundTrip(kind: string, workspace: string, role: string, rest: string)
    requires ':' !in kind && ':' !in role
    ensures var id := kind + ":" + workspace + ":" + role + ":" + rest;
            ParseID(id) == Ok(workspace) && ParseRole(id) == Ok(role) <==> ':' !in workspace
  {
    if ':' in workspace {
      SplitIsFree(kind + ":" + workspace + ":" + role + ":" + rest, ':');
    } else {
      SplitThree(kind, workspace, role, rest);
    }
  }

  /** The IDs in full. */
  lemma RoleIdsInFull(workspace: string, role: Role, user: string)
    ensures RoleEntitlement(workspace, role).id == WORKSPACE_ROLE + ":" + workspace + ":" + role.Id() + ":" + "assigned"
    ensures RoleGrant(workspace, role, user).id
            == WORKSPACE_ROLE + ":" + workspace + ":" + role.Id() + ":" + ("assigned" + ":" + USER + ":" + user)
  {
    RoleIds(role);
  }

  /** The workspace and the role come back out of an entitlement ID and out of a grant ID, whatever the
      user ID is, exactly when the workspace ID has no colon. */
  lemma RoleIdRoundTrip(workspace: string, role: Role, user: string)
    ensures var id := RoleEntitlement(workspace, role).id;
            ParseID(id) == Ok(workspace) && ParseRole(id) == Ok(role.Id()) <==> ':' !in workspace
    ensures var id := RoleGrant(workspace, role, user).id;
            ParseID(id) == Ok(workspace) && ParseRole(id) == Ok(role.Id()) <==> ':' !in workspace
  {
    RoleIds(role);
    RoleIdsInFull(workspace, role, user);
    PartsRoundTrip(WORKSPACE_ROLE, workspace, role.Id(), "assigned");
    PartsRoundTrip(WORKSPACE_ROLE, workspace, role.Id(), "assigned" + ":" + USER + ":" + user);
  }

  // ----- Provisioning

  /** The admin endpoints that change a user's standing in a workspace. */
  datatype Endpoint = SetOwner | SetAdmin | SetRegular | RemoveUser | AddUser

  datatype ApiCall = ApiCall(endpoint: Endpoint, team: string, user: string)

  /** The server seen through its admin endpoints: the calls it received, and the text of the error it
      answers with, if any. */
  class SlackApi {
    var calls: seq<ApiCall>
    var failure: Option<string>

    constructor (failure: Option<string>)
      ensures calls == [] && this.failure == failure
    {
      calls, this.failure := [], failure;
    }

    method Post(endpoint: Endpoint, team: string, user: string) returns (error: Option<string>)
      modifies this`calls
      ensures calls == old(calls) + [ApiCall(endpoint, team, user)] && error == failure
    {
      calls := calls + [ApiCall(endpoint, team, user)];
      error := failure;
    }
  }

  function GetWorkspaceUrlPathByRole(roleID: string): Result<Endpoint> {
    if roleID == "owner" then Ok(SetOwner)
    else if roleID == "admin" then Ok(SetAdmin)
    else if roleID == "" || roleID == "member" then Ok(SetRegular)
    else Err("invalid role type: " + roleID)
  }

  method SetWorkspaceRole(api: SlackApi, team: string, user: string, roleID: string) returns (error: Option<string>)
    modifies api`calls
    ensures match GetWorkspaceUrlPathByRole(roleID)
            case Err(e) => error == Some(e) && api.calls == old(api.calls)
            case Ok(endpoint) => error == api.failure && api.calls == old(api.calls) + [ApiCall(endpoint, team, user)]
  {
    match GetWorkspaceUrlPathByRole(roleID)
    case Err(e) => error := Some(e);
    case Ok(endpoint) => error := api.Post(endpoint, team, user);
  }

  /** The call that granting an entitlement makes, if it gets that far. */
  function GrantCall(entitlementId: string, user: string): Option<ApiCall> {
    match (ParseID(entitlementId), ParseRole(entitlementId))
    case (Ok(team), Ok(roleID)) =>
      (match GetWorkspaceUrlPathByRole(roleID)
       case Ok(endpoint) => Some(ApiCall(endpoint, team, user))
       case Err(_) => None)
    case _ => None
  }

  /** The call that revoking a grant makes, if any. */
  function RevokeCall(grantId: string, user: string): Option<ApiCall> {
    match (ParseID(grantId), ParseRole(grantId))
    case (Ok(team), Ok(roleID)) =>
      if roleID == "admin" || roleID == "owner" then Some(ApiCall(SetRegular, team, user))
      else if roleID == "member" then Some(ApiCall(RemoveUser, team, user))
      else None
    case _ => None
  }

  ghost function Listed(call: Option<ApiCall>): seq<ApiCall> {
    if call.Some? then [call.value] else []
  }

  method GrantRole(api: SlackApi, principal: ResourceId, entitlementId: string) returns (outcome: Outcome)
    modifies api`calls
    ensures principal.resourceType != USER ==> outcome == Failed && api.calls == old(api.calls)
    ensures principal.resourceType == USER ==>
              && api.calls == old(api.calls) + Listed(GrantCall(entitlementId, principal.resource))
              && outcome == if GrantCall(entitlementId, principal.resource).Some? && api.failure.None? then Done else Failed
  {
    if principal.resourceType != USER {
      return Failed;
    }
    var teamID := ParseID(entitlementId);
    if teamID.Err? {
      return Failed;
    }
    var roleID := ParseRole(entitlementId);
    if roleID.Err? {
      return Failed;
    }
    var error := SetWorkspaceRole(api, teamID.value, principal.resource, roleID.value);
    outcome := if error.Some? then Failed else Done;
  }

  /** How a revoke ends when its call fails with this error text, or does not fail. */
  function RevokeOutcome(failure: Option<string>): Outcome {
    match failure
    case None => Done
    case Some(text) => if Contains(text, "NotFound") then AlreadyRevoked else Failed
  }

  /** An error whose text names the code `NotFound` counts as already revoked; a role the switch does not
      name is a silent success. */
  method RevokeRole(api: SlackApi, principal: ResourceId, grantId: string) returns (outcome: Outcome)
    modifies api`calls
    ensures principal.resourceType != USER || ParseRole(grantId).Err? ==> outcome == Failed && api.calls == old(api.calls)
    ensures principal.resourceType == USER && ParseRole(grantId).Ok? ==>
              var call := RevokeCall(grantId, principal.resource);
              && api.calls == old(api.calls) + Listed(call)
              && outcome == if call.None? then Done else RevokeOutcome(api.failure)
    ensures outcome == Done <==> principal.resourceType == USER && ParseRole(grantId).Ok?
                                 && (RevokeCall(grantId, principal.resource).None? || api.failure.None?)
  {
    if principal.resourceType != USER {
      return Failed;
    }
    var teamID := ParseID(grantId);
    if teamID.Err? {
      return Failed;
    }
    var role := ParseRole(grantId);
    if role.Err? {
      return Failed;
    }
    var error: Option<string> := None;
    if role.value == "admin" || role.value == "owner" {
      error := SetWorkspaceRole(api, teamID.value, principal.resource, "");
    } else if role.value == "member" {
      error := api.Post(RemoveUser, teamID.value, principal.resource);
    }
    if error.Some? {
      if Contains(error.value, "NotFound") {
        return AlreadyRevoked;
      }
      return Failed;
    }
    outcome := Done;
  }

  /** Over the whole table, Grant reaches the API exactly for the roles for which Revoke does, both on the
      right workspace and user; every other role is refused by Grant and left alone by Revoke. */
  lemma DispatchAgrees(workspace: string, role: Role, user: string)
    requires ':' !in workspace
    ensures var granting := GrantCall(RoleEntitlement(workspace, role).id, user);
            var revoking := RevokeCall(RoleGrant(workspace, role, user).id, user);
            && (granting.Some? <==> role in {Owner, Admin, Member})
            && (granting.Some? <==> revoking.Some?)
            && (granting.Some? ==>
                  && granting.value.team == revoking.value.team == workspace
                  && granting.value.user == revoking.value.user == user
                  && granting.value.endpoint == (if role == Owner then SetOwner
                                                 else if role == Admin then SetAdmin else SetRegular)
                  && revoking.value.endpoint == if role == Member then RemoveUser else SetRegular)
  {
    RoleIdRoundTrip(workspace, role, user);
    RoleIds(role);
  }

  /** Over all IDs the two agree exactly when the role part is not empty: the empty role is regular
      membership to Grant and no role at all to Revoke. */
  lemma DispatchAgreesOnAnyId(id: string, user: string)
    requires ParseRole(id).Ok?
    ensures GrantCall(id, user).Some? <==> ParseRole(id).value in {"owner", "admin", "member", ""}
    ensures RevokeCall(id, user).Some? <==> ParseRole(id).value in {"owner", "admin", "member"}
    ensures (GrantCall(id, user).Some? <==> RevokeCall(id, user).Some?) <==> ParseRole(id) != Ok("")
  {
  }
}
