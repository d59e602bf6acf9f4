/** The cache of workspace names: filled page by page while workspaces are listed, read back when role
    entitlements are built. */
module WorkspaceNames {
  import opened Resources
  import opened Membership

  datatype Team = Team(id: string, name: string)

  /** The names of a list of teams; a later team overrides an earlier one with the same ID. */
  function NamesOf(teams: seq<Team>): map<string, string> {
    if teams == [] then map[]
    else NamesOf(teams[..|teams| - 1])[teams[|teams| - 1].id := teams[|teams| - 1].name]
  }

  lemma {:induction false} NamesOfAppend(a: seq<Team>, b: seq<Team>)
    ensures NamesOf(a + b) == NamesOf(a) + NamesOf(b)
  {
    if b == [] {
      assert a + b == a;
    } else {
      assert (a + b)[..|a + b| - 1] == a + b[..|b| - 1];
      NamesOfAppend(a, b[..|b| - 1]);
    }
  }

  /** The position of the last team with an ID, if any. */
  ghost predicate LastListed(teams: seq<Team>, id: string, k: nat) {
    k < |teams| && teams[k].id == id && forall j :: k < j < |teams| ==> teams[j].id != id
  }

  /** A name is known exactly for the listed IDs, and it is the last one listed. */
  lemma {:induction false} NamesOfExact(teams: seq<Team>, id: string)
    ensures id in NamesOf(teams) <==> exists k: nat :: LastListed(teams, id, k)
    ensures forall k: nat :: LastListed(teams, id, k) ==> NamesOf(teams)[id] == teams[k].name
  {
    if teams != [] {
      var front, n := teams[..|teams| - 1], |teams| - 1;
      NamesOfExact(front, id);
      if teams[n].id == id {
        assert LastListed(teams, id, n);
      } else {
        assert forall k: nat :: LastListed(front, id, k) <==> LastListed(teams, id, k);
      }
    }
  }

  /** The session store, as far as the workspace-name prefix goes. */
  class SessionStore {
    var names: map<string, string>

    constructor ()
      ensures names == map[]
    {
      names := map[];
    }
  }

  method SetWorkspaceNames(ss: SessionStore, workspaces: seq<Team>)
    modifies ss
    ensures ss.names == old(ss.names) + NamesOf(workspaces)
  {
    var workspaceMap: map<string, string> := map[];
    for k := 0 to |workspaces|
      invariant workspaceMap == NamesOf(workspaces[..k])
    {
      assert workspaces[..k + 1][..k] == workspaces[..k];
      workspaceMap := workspaceMap[workspaces[k].id := workspaces[k].name];
    }
    assert workspaces[..|workspaces|] == workspaces;
    ss.names := ss.names + workspaceMap;
  }

  /** The elements of `ids` for which `keep` holds, in order. */
  ghost function Only(ids: seq<string>, keep: set<string>): seq<string> {
    if ids == [] then []
    else Only(ids[..|ids| - 1], keep) + if ids[|ids| - 1] in keep then [ids[|ids| - 1]] else []
  }

  /** Which elements are left, and how often. */
  lemma {:induction false} OnlyExact(ids: seq<string>, keep: set<string>, id: string)
    ensures multiset(Only(ids, keep))[id] == if id in keep then multiset(ids)[id] else 0
  {
    if ids != [] {
      var front, last := ids[..|ids| - 1], ids[|ids| - 1];
      OnlyExact(front, keep, id);
      assert ids == front + [last];
      assert last in keep ==> Only(ids, keep) == Only(front, keep) + [last];
    }
  }

  lemma {:induction false} OnlyKeepsOrder(ids: seq<string>, keep: set<string>)
    ensures Subsequence(Only(ids, keep), ids)
  {
    if ids != [] {
      var front, last := ids[..|ids| - 1], ids[|ids| - 1];
      OnlyKeepsOrder(front, keep);
      assert ids == front + [last];
      SubsequenceSnoc(Only(front, keep), front, last);
      assert last !in keep ==> Only(ids, keep) == Only(front, keep);
    }
  }

  ghost function Valid(ids: seq<string>): set<string> {
    set id | id in ids && id != ""
  }

  /** `found` and `missing` split the non-empty IDs between them, and what is found is what is stored. */
  method GetWorkspaceNames(ss: SessionStore, workspaceIDs: seq<string>)
    returns (found: map<string, string>, missing: seq<string>)
    ensures found.Keys == Valid(workspaceIDs) * ss.names.Keys
    ensures forall id :: id in found ==> found[id] == ss.names[id]
    ensures missing == Only(workspaceIDs, Valid(workspaceIDs) - ss.names.Keys)
  {
    ghost var lost := Valid(workspaceIDs) - ss.names.Keys;
    var validIDs: seq<string> := [];
    for k := 0 to |workspaceIDs|
      invariant forall id :: id in validIDs <==> id in workspaceIDs[..k] && id != ""
      invariant Only(validIDs, lost) == Only(workspaceIDs[..k], lost)
    {
      assert workspaceIDs[..k + 1][..k] == workspaceIDs[..k];
      if workspaceIDs[k] != "" {
        assert (validIDs + [workspaceIDs[k]])[..|validIDs|] == validIDs;
        validIDs := validIDs + [workspaceIDs[k]];
      }
    }
    assert workspaceIDs[..|workspaceIDs|] == workspaceIDs;
    if |validIDs| == 0 {
      return map[], [];
    }
    found := map id | id in validIDs && id in ss.names :: ss.names[id];
    missing := [];
    for k := 0 to |validIDs|
      invariant missing == Only(validIDs[..k], lost)
    {
      assert validIDs[..k + 1][..k] == validIDs[..k];
      assert validIDs[k] in validIDs && validIDs[k] in workspaceIDs[..|workspaceIDs|];
      if validIDs[k] !in found {
        missing := missing + [validIDs[k]];
      }
    }
    assert validIDs[..|validIDs|] == validIDs;
  }

  datatype TeamPage = TeamPage(teams: seq<Team>, nextCursor: string)

  function WorkspaceResource(team: Team, parent: Option<ResourceId>): Result<Resource> {
    Ok(Resource(ResourceId(WORKSPACE, team.id), team.name, None))
  }

  /** What a workspace is listed as. */
  lemma WorkspaceFields(team: Team, parent: Option<ResourceId>)
    ensures WorkspaceResource(team, parent).Ok?
    ensures var r := WorkspaceResource(team, parent).value;
            r.id.resourceType == "workspace" && r.id.resource == team.id && r.displayName == team.name
  {
  }

  /** One listing call: the page's names are stored before its resources are returned. */
  method ListWorkspaces(ss: SessionStore, reply: Result<TeamPage>) returns (r: Result<(seq<Resource>, string)>)
    modifies ss
    ensures reply.Err? ==> r.Err? && ss.names == old(ss.names)
    ensures reply.Ok? ==>
              && ss.names == old(ss.names) + NamesOf(reply.value.teams)
              && r.Ok? && r.value.1 == reply.value.nextCursor && |r.value.0| == |reply.value.teams|
              && forall k :: 0 <= k < |reply.value.teams| ==> Ok(r.value.0[k]) == WorkspaceResource(reply.value.teams[k], None)
  {
    if reply.Err? {
      return Err(reply.error);
    }
    SetWorkspaceNames(ss, reply.value.teams);
    var output := MakeResourceList(reply.value.teams, None, WorkspaceResource);
    CollectOk(Converted(reply.value.teams, None, WorkspaceResource));
    r := Ok((output.value, reply.value.nextCursor));
  }

  /** A role's entitlement with its display name, from the names in the cache. */
  function EntitlementIn(names: map<string, string>, role: Resource, workspace: string): Result<(Entitlement, string)> {
    if workspace == "" || workspace !in names then Err("workspace not found in cache: " + workspace)
    else Ok((NewEntitlement(role, ROLE_ASSIGNMENT_ENTITLEMENT),
             names[workspace] + " workspace " + role.displayName + " role"))
  }

  /** A role's entitlement, with its display name; an error when the workspace's name is not cached. */
  method RoleEntitlements(ss: SessionStore, role: Resource, workspace: string) returns (r: Result<(Entitlement, string)>)
    ensures r == EntitlementIn(ss.names, role, workspace)
  {
    var found, missing := GetWorkspaceNames(ss, [workspace]);
    if workspace !in found {
      return Err("workspace not found in cache: " + workspace);
    }
    r := Ok((NewEntitlement(role, ROLE_ASSIGNMENT_ENTITLEMENT),
             found[workspace] + " workspace " + role.displayName + " role"));
  }

  // ----- Whole listings

  ghost function AllTeams(pages: seq<Result<TeamPage>>): seq<Team> {
    if pages == [] then []
    else AllTeams(pages[..|pages| - 1]) + if pages[|pages| - 1].Ok? then pages[|pages| - 1].value.teams else []
  }

  /** What an empty store holds after a run of `ListWorkspaces` calls, failed ones included. */
  ghost function Stored(pages: seq<Result<TeamPage>>): map<string, string> {
    if pages == [] then map[]
    else Stored(pages[..|pages| - 1]) + if pages[|pages| - 1].Ok? then NamesOf(pages[|pages| - 1].value.teams) else map[]
  }

  lemma {:induction false} StoredIsListed(pages: seq<Result<TeamPage>>)
    ensures Stored(pages) == NamesOf(AllTeams(pages))
  {
    if pages != [] {
      var front, last := pages[..|pages| - 1], pages[|pages| - 1];
      StoredIsListed(front);
      NamesOfAppend(AllTeams(front), if last.Ok? then last.value.teams else []);
    }
  }

  /** After any run of listing calls, building a role's entitlements succeeds for exactly the listed
      workspaces whose ID is not empty, with the last name listed. */
  lemma EntitlementsAfterListing(pages: seq<Result<TeamPage>>, role: Resource, workspace: string)
    ensures EntitlementIn(Stored(pages), role, workspace).Ok? <==>
            workspace != "" && exists k :: 0 <= k < |AllTeams(pages)| && AllTeams(pages)[k].id == workspace
    ensures forall k: nat :: workspace != "" && LastListed(AllTeams(pages), workspace, k) ==>
              EntitlementIn(Stored(pages), role, workspace)
              == Ok((NewEntitlement(role, ROLE_ASSIGNMENT_ENTITLEMENT),
                     AllTeams(pages)[k].name + " workspace " + role.displayName + " role"))
  {
    CacheAgreesWithListing(pages, workspace);
  }

  /** After any run of listing calls, the cache has exactly the IDs listed so far, each with the last name
      listed for it. */
  lemma CacheAgreesWithListing(pages: seq<Result<TeamPage>>, id: string)
    ensures id in Stored(pages) <==> exists k :: 0 <= k < |AllTeams(pages)| && AllTeams(pages)[k].id == id
    ensures forall k: nat :: LastListed(AllTeams(pages), id, k) ==> id in Stored(pages) && Stored(pages)[id] == AllTeams(pages)[k].name
  {
    StoredIsListed(pages);
    NamesOfExact(AllTeams(pages), id);
    LastExists(AllTeams(pages), id);
  }

  lemma {:induction false} LastExists(teams: seq<Team>, id: string)
    ensures (exists k :: 0 <= k < |teams| && teams[k].id == id) <==> exists k: nat :: LastListed(teams, id, k)
  {
    if teams != [] {
      var front, n := teams[..|teams| - 1], |teams| - 1;
      LastExists(front, id);
      if teams[n].id == id {
        assert LastListed(teams, id, n);
      } else {
        assert forall k: nat :: LastListed(front, id, k) <==> LastListed(teams, id, k);
        assert forall k :: 0 <= k < n ==> front[k] == teams[k];
      }
    }
  }
}
