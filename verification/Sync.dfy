/** Properties of a whole sync: the grants emitted with the workspaces against the resources that the
    other listings emit. */
module Sync {
  import opened Resources
  import opened EnterpriseRoles
  import opened RoleListingRun
  import opened WorkspaceRoles
  import opened WorkspaceGrants
  import opened GrantLaws

  lemma {:induction false} CountedIsEmitted(rs: seq<Resource>, id: string)
    requires Count(rs, id) > 0
    ensures exists r :: r in rs && r.id.resource == id
  {
    var front, last := rs[..|rs| - 1], rs[|rs| - 1];
    assert last in rs;
    if last.id.resource != id {
      CountedIsEmitted(front, id);
      var r :| r in front && r.id.resource == id;
      assert r in rs;
    }
  }

  /** A finished listing of the enterprise roles has emitted every organisation role's resource. */
  lemma OrganizationRolesListed(json: Json, pages: map<string, Page>, chain: seq<Page>, attempts: seq<Attempt>,
                                role: OrganizationRole)
    requires json.RoundTrips() && IsChain(pages, chain) && Orderly(ROLE_TABLES, attempts) && On(pages, attempts)
    requires Run(ROLE_TABLES, json, START, attempts).token == None
    ensures Resource(ResourceId(ENTERPRISE_ROLE, role.Id()), role.Name(), None)
            in Run(ROLE_TABLES, json, START, attempts).emitted
  {
    var emitted := Run(ROLE_TABLES, json, START, attempts).emitted;
    RoleTablesDisjoint();
    OrganizationRolesKnown(role);
    OrganizationIdLength(role);
    OrganizationIdsAreNotSystemIds(role.Id());
    ExactlyOnce(ROLE_TABLES, json, pages, chain, attempts, role.Id());
    CountedIsEmitted(emitted, role.Id());
    EmitsTableResources(ROLE_TABLES, json, START, attempts);
  }

  lemma OrganizationIdLength(role: OrganizationRole)
    ensures |role.Id()| > 4
  {
  }

  /** Every listing of a workspace's roles contains every role. */
  lemma RoleListed(workspace: ResourceId, listing: seq<Resource>, role: Role)
    requires exists order :: RolesListedIn(order, workspace, listing)
    ensures Resource(ResourceId(WORKSPACE_ROLE, workspace.resource + ":" + role.Id()), role.Name(), Some(workspace)) in listing
  {
    var order :| RolesListedIn(order, workspace, listing);
    RoleIds(role);
    assert role in multiset(order);
    var k :| 0 <= k < |order| && order[k] == role;
    assert listing[k] in listing;
  }

  /** No grant dangles: a workspace-role grant is on a resource in every role listing of its workspace, an
      organisation-role grant is on a resource in every finished listing of the enterprise roles, and any
      other grant is on the workspace itself. */
  lemma NoDanglingGrant(workspace: Resource, users: seq<User>, skip: Skip, k: nat, listing: seq<Resource>,
                        json: Json, pages: map<string, Page>, chain: seq<Page>, attempts: seq<Attempt>)
    requires k < |AllAwards(users, skip)|
    requires exists order :: RolesListedIn(order, workspace.id, listing)
    requires json.RoundTrips() && IsChain(pages, chain) && Orderly(ROLE_TABLES, attempts) && On(pages, attempts)
    requires Run(ROLE_TABLES, json, START, attempts).token == None
    ensures var on := GrantsOf(workspace, AllAwards(users, skip))[k].entitlement.resource;
            match AllAwards(users, skip)[k].target
            case InWorkspace(_) => on in listing
            case InOrganization(_) => on in Run(ROLE_TABLES, json, START, attempts).emitted
            case Membership => on == workspace
  {
    match AllAwards(users, skip)[k].target
    case InWorkspace(role) => RoleListed(workspace.id, listing, role);
    case InOrganization(role) => OrganizationRolesListed(json, pages, chain, attempts, role);
    case Membership =>
  }

  /** No organisation-role grant that comes with a workspace is on the role of a grant that `RoleGrants`
      emits, for whatever role that is called: neither repeats the other. */
  lemma EnterpriseGrantsDisjoint(workspace: Resource, users: seq<User>, skip: Skip, k: nat,
                                 role: Resource, reply: Result<Page>, r: Result<(seq<Grant>, string)>, g: Grant)
    requires k < |AllAwards(users, skip)| && AllAwards(users, skip)[k].target.InOrganization?
    requires GrantedIn(ROLE_TABLES, role, reply, r) && r.Ok? && g in r.value.0
    ensures GrantsOf(workspace, AllAwards(users, skip))[k].entitlement.resource.id != g.entitlement.resource.id
  {
    var orgRole := AllAwards(users, skip)[k].target.orgRole;
    assert orgRole.Id() in ROLE_TABLES.organization;
  }

  // ----- Repeated organisation-role grants

  datatype Workspace = Workspace(resource: Resource, users: seq<User>)

  ghost function SyncGrants(workspaces: seq<Workspace>, skip: Skip): seq<Grant> {
    if workspaces == [] then []
    else
      var last := workspaces[|workspaces| - 1];
      SyncGrants(workspaces[..|workspaces| - 1], skip) + GrantsOf(last.resource, AllAwards(last.users, skip))
  }

  ghost function Occurrences(gs: seq<Grant>, g: Grant): nat {
    if gs == [] then 0 else Occurrences(gs[..|gs| - 1], g) + if gs[|gs| - 1] == g then 1 else 0
  }

  lemma {:induction false} OccurrencesAppend(a: seq<Grant>, b: seq<Grant>, g: Grant)
    ensures Occurrences(a + b, g) == Occurrences(a, g) + Occurrences(b, g)
  {
    if b == [] {
      assert a + b == a;
    } else {
      assert (a + b)[..|a + b| - 1] == a + b[..|b| - 1];
      OccurrencesAppend(a, b[..|b| - 1], g);
    }
  }

  /** In one workspace a grant occurs as often as its award. */
  lemma {:induction false} OccurrencesAreTimes(workspace: Resource, awards: seq<Award>, a: Award)
    requires workspace.id.resourceType == WORKSPACE
    ensures Occurrences(GrantsOf(workspace, awards), GrantFor(workspace, a)) == Times(awards, a)
  {
    if awards != [] {
      var front, last := awards[..|awards| - 1], awards[|awards| - 1];
      OccurrencesAreTimes(workspace, front, a);
      assert GrantsOf(workspace, awards)[..|front|] == GrantsOf(workspace, front);
      if GrantFor(workspace, last) == GrantFor(workspace, a) {
        GrantIdsDistinct(workspace, last, a);
      }
    }
  }

  ghost predicate SomeEarns(users: seq<User>, skip: Skip, a: Award) {
    exists u :: u in users && Earns(u, skip, a)
  }

  /** In how many of the workspaces somebody earns an award. */
  ghost function Places(workspaces: seq<Workspace>, skip: Skip, a: Award): nat {
    if workspaces == [] then 0
    else Places(workspaces[..|workspaces| - 1], skip, a)
         + if SomeEarns(workspaces[|workspaces| - 1].users, skip, a) then 1 else 0
  }

  /** An organisation-role grant does not depend on the workspace it comes with, so a sync emits it once
      for every workspace that lists its holder. */
  lemma {:induction false} OrganizationGrantsRepeat(workspaces: seq<Workspace>, skip: Skip, role: OrganizationRole,
                                                    userID: string, any: Resource)
    requires forall w :: w in workspaces ==> w.resource.id.resourceType == WORKSPACE && DistinctIds(w.users)
    ensures var a := Award(InOrganization(role), userID);
            Occurrences(SyncGrants(workspaces, skip), GrantFor(any, a)) == Places(workspaces, skip, a)
  {
    if workspaces != [] {
      var a := Award(InOrganization(role), userID);
      var front, last := workspaces[..|workspaces| - 1], workspaces[|workspaces| - 1];
      assert last in workspaces;
      OrganizationGrantsRepeat(front, skip, role, userID, any);
      OccurrencesAppend(SyncGrants(front, skip), GrantsOf(last.resource, AllAwards(last.users, skip)), GrantFor(any, a));
      assert GrantFor(any, a) == GrantFor(last.resource, a);
      OccurrencesAreTimes(last.resource, AllAwards(last.users, skip), a);
      AwardsDistinct(last.users, skip, a);
    }
  }
}
