/** Listing enterprise roles: a run of `List` calls that remembers nothing but a page token.

    `GetRoleAssignments` names a role once per assignment, so the same role comes back on many
    pages. The token carries the set of roles already emitted; the organisation roles are emitted by
    the call that starts from an empty cursor. */
module EnterpriseRoles {
  import opened Resources

  const ORGANIZATION_PRIMARY_OWNER_ID := "organization_primary_owner"
  const ORGANIZATION_OWNER_ID := "organization_owner"
  const ORGANIZATION_ADMIN_ID := "organization_admin"

  const SYSTEM_ROLES := map[
    "Rl0L" := "Analytics Admin",
    "Rl0C" := "Audit Logs Admin",
    "Rl01" := "Channel Admin",
    "Rl0A" := "Channel Manager",
    "Rl05" := "Conversation Admin",
    "Rl09" := "DLP Admin",
    "Rl0F" := "Exports Admin",
    "Rl0D" := "Integrations Manager",
    "Rl04" := "Message Activity Manager",
    "Rl02" := "Role Admin",
    "Rl0G" := "Sales Admin",
    "Rl0H" := "Sales User",
    "Rl0J" := "Security Admin",
    "Rl0B" := "Slack Platform Developer",
    "Rl03" := "User Admin",
    "Rl0K" := "Workflow Admin"
  ]

  const ORGANIZATION_ROLES := map[
    ORGANIZATION_PRIMARY_OWNER_ID := "Organization primary owner",
    ORGANIZATION_OWNER_ID := "Organization owner",
    ORGANIZATION_ADMIN_ID := "Organization admin"
  ]

  /** The two package-level tables. Everything below is proved for any pair of tables. */
  datatype RoleTables = RoleTables(system: map<string, string>, organization: map<string, string>) {
    predicate Has(roleID: string) {
      roleID in system || roleID in organization
    }
  }

  const ROLE_TABLES := RoleTables(SYSTEM_ROLES, ORGANIZATION_ROLES)

  function EnterpriseRoleResource(t: RoleTables, roleID: string): (r: Result<Resource>)
    ensures r.Ok? <==> t.Has(roleID)
    ensures r.Ok? ==> r.value == TableResource(t, roleID)
  {
    if roleID in t.system then
      Ok(Resource(ResourceId(ENTERPRISE_ROLE, roleID), t.system[roleID], None))
    else if roleID in t.organization then
      Ok(Resource(ResourceId(ENTERPRISE_ROLE, roleID), t.organization[roleID], None))
    else
      Err("invalid system or organization roleID: " + roleID)
  }

  predicate ListedAs(id: string, name: string) {
    EnterpriseRoleResource(ROLE_TABLES, id) == Ok(Resource(ResourceId("enterpriseRole", id), name, None))
  }

  lemma SystemRoleListed(id: string, name: string)
    requires id in SYSTEM_ROLES && SYSTEM_ROLES[id] == name
    ensures ListedAs(id, name)
  {
  }

  /** The tables spelled out: the ID and the name under which each enterprise role is listed. */
  lemma FirstSystemRoles()
    ensures ListedAs("Rl0L", "Analytics Admin") && ListedAs("Rl0C", "Audit Logs Admin")
    ensures ListedAs("Rl01", "Channel Admin") && ListedAs("Rl0A", "Channel Manager")
  {
    SystemRoleListed("Rl0L", "Analytics Admin");
    SystemRoleListed("Rl0C", "Audit Logs Admin");
    SystemRoleListed("Rl01", "Channel Admin");
    SystemRoleListed("Rl0A", "Channel Manager");
  }

  lemma SecondSystemRoles()
    ensures ListedAs("Rl05", "Conversation Admin") && ListedAs("Rl09", "DLP Admin")
    ensures ListedAs("Rl0F", "Exports Admin") && ListedAs("Rl0D", "Integrations Manager")
  {
    SystemRoleListed("Rl05", "Conversation Admin");
    SystemRoleListed("Rl09", "DLP Admin");
    SystemRoleListed("Rl0F", "Exports Admin");
    SystemRoleListed("Rl0D", "Integrations Manager");
  }

  lemma ThirdSystemRoles()
    ensures ListedAs("Rl04", "Message Activity Manager") && ListedAs("Rl02", "Role Admin")
    ensures ListedAs("Rl0G", "Sales Admin") && ListedAs("Rl0H", "Sales User")
  {
    SystemRoleListed("Rl04", "Message Activity Manager");
    SystemRoleListed("Rl02", "Role Admin");
    SystemRoleListed("Rl0G", "Sales Admin");
    SystemRoleListed("Rl0H", "Sales User");
  }

  lemma LastSystemRoles()
    ensures ListedAs("Rl0J", "Security Admin") && ListedAs("Rl0B", "Slack Platform Developer")
    ensures ListedAs("Rl03", "User Admin") && ListedAs("Rl0K", "Workflow Admin")
  {
    SystemRoleListed("Rl0J", "Security Admin");
    SystemRoleListed("Rl0B", "Slack Platform Developer");
    SystemRoleListed("Rl03", "User Admin");
    SystemRoleListed("Rl0K", "Workflow Admin");
  }

  lemma OrganizationRoleNames()
    ensures ListedAs("organization_primary_owner", "Organization primary owner")
            && ListedAs("organization_owner", "Organization owner") && ListedAs("organization_admin", "Organization admin")
  {
  }

  // ----- The page token

  /** What the token's JSON object can hold; `foundMap` may be null. */
  datatype TokenState = TokenState(cursor: string, foundMap: Option<map<string, bool>>)

  /** The JSON encoder and decoder, of which only the round trip is used. */
  datatype Json = Json(encode: TokenState -> string, decode: string -> Option<TokenState>) {
    ghost predicate RoundTrips() {
      forall st :: encode(st) != "" && decode(encode(st)) == Some(st)
    }
  }

  function PrintToken(json: Json, cursor: string, found: Option<map<string, bool>>): string {
    if cursor == "" then "" else json.encode(TokenState(cursor, found))
  }

  function ParseToken(json: Json, token: string): Result<(string, map<string, bool>)> {
    if token == "" then Ok(("", map[]))
    else
      match json.decode(token)
      case None => Err("failed to parse roles page token")
      case Some(TokenState(cursor, None)) => Ok((cursor, map[]))
      case Some(TokenState(cursor, Some(found))) => Ok((cursor, found))
  }

  /** The token keeps the whole state exactly when there is a next page to ask for; an empty cursor
      drops the set of emitted roles. */
  lemma TokenRoundTrip(json: Json, cursor: string, found: map<string, bool>)
    requires json.RoundTrips()
    ensures PrintToken(json, cursor, Some(found)) == "" <==> cursor == ""
    ensures ParseToken(json, PrintToken(json, cursor, Some(found))) == Ok((cursor, found))
            <==> cursor != "" || found == map[]
  {
  }

  class EnterpriseRolesPagination {
    var Cursor: string
    var FoundMap: Option<map<string, bool>>

    constructor ()
      ensures Cursor == "" && FoundMap == None
    {
      Cursor := "";
      FoundMap := None;
    }

    method Marshal(json: Json) returns (token: string)
      ensures token == PrintToken(json, Cursor, FoundMap)
    {
      if Cursor == "" {
        return "";
      }
      token := json.encode(TokenState(Cursor, FoundMap));
    }

    /** Fills a fresh object; the caller never reuses one. */
    method Unmarshal(json: Json, input: string) returns (ok: bool)
      requires Cursor == "" && FoundMap == None
      modifies this
      ensures ok <==> input == "" || json.decode(input).Some?
      ensures input == "" ==> Cursor == "" && FoundMap == Some(map[])
      ensures input != "" && ok ==> json.decode(input) == Some(TokenState(Cursor, FoundMap))
    {
      if input == "" {
        FoundMap := Some(map[]);
        return true;
      }
      match json.decode(input)
      case None => return false;
      case Some(st) =>
        Cursor := st.cursor;
        FoundMap := st.foundMap;
        return true;
    }
  }

  method ParseRolesPageToken(json: Json, i: string) returns (r: Result<EnterpriseRolesPagination>)
    ensures r.Err? <==> ParseToken(json, i).Err?
    ensures r.Ok? ==> fresh(r.value) && r.value.FoundMap.Some? &&
                      ParseToken(json, i) == Ok((r.value.Cursor, r.value.FoundMap.value))
  {
    var b := new EnterpriseRolesPagination();
    var ok := b.Unmarshal(json, i);
    if !ok {
      return Err("failed to parse roles page token");
    }
    if b.FoundMap == None {
      b.FoundMap := Some(map[]);
    }
    return Ok(b);
  }

  // ----- One `List` call

  datatype RoleAssignment = RoleAssignment(roleID: string, userID: string)

  datatype Page = Page(assignments: seq<RoleAssignment>, nextCursor: string)

  /** The pages `GetRoleAssignments` serves, by cursor, and whether it answers at all. */
  datatype Server = Server(pages: map<string, Page>, up: bool) {
    function GetRoleAssignments(cursor: string): Result<Page> {
      if up && cursor in pages then Ok(pages[cursor]) else Err("request failed")
    }
  }

  datatype ListPage = ListPage(resources: seq<Resource>, nextToken: string)

  /** `order` lists the members of `s`, each once: one possible iteration order of a Go map. */
  ghost predicate Enumerates(order: seq<string>, s: set<string>) {
    multiset(order) == multiset(s)
  }

  /** The resource of a role that is in one of the tables. */
  function TableResource(t: RoleTables, roleID: string): Resource {
    Resource(ResourceId(ENTERPRISE_ROLE, roleID),
             if roleID in t.system then t.system[roleID]
             else if roleID in t.organization then t.organization[roleID]
             else "",
             None)
  }

  ghost function TableResources(t: RoleTables, ids: seq<string>): (rs: seq<Resource>)
    ensures |rs| == |ids| && forall k :: 0 <= k < |ids| ==> rs[k] == TableResource(t, ids[k])
  {
    seq(|ids|, i requires 0 <= i < |ids| => TableResource(t, ids[i]))
  }

  lemma TableResourcesAppend(t: RoleTables, a: seq<string>, b: seq<string>)
    ensures TableResources(t, a + b) == TableResources(t, a) + TableResources(t, b)
  {
  }

  /** The roles a page adds, in order, to those already found. */
  ghost function NewRoles(t: RoleTables, assignments: seq<RoleAssignment>, found: set<string>): seq<string> {
    if assignments == [] then []
    else
      var before, id := NewRoles(t, assignments[..|assignments| - 1], found), assignments[|assignments| - 1].roleID;
      if id in found || id in before || id !in t.system then before else before + [id]
  }

  /** The system roles that occur in a list of assignments. */
  ghost function RolesIn(t: RoleTables, assignments: seq<RoleAssignment>): set<string> {
    set a | a in assignments && a.roleID in t.system :: a.roleID
  }

  lemma RolesInSnoc(t: RoleTables, front: seq<RoleAssignment>, last: RoleAssignment, id: string)
    ensures id in RolesIn(t, front + [last]) <==> id in RolesIn(t, front) || (id == last.roleID && id in t.system)
  {
  }

  /** A page adds exactly the system roles on it that were not found before, each once. */
  lemma {:induction false} NewRolesExact(t: RoleTables, assignments: seq<RoleAssignment>, found: set<string>, id: string)
    ensures multiset(NewRoles(t, assignments, found))[id] == if id in RolesIn(t, assignments) && id !in found then 1 else 0
  {
    if assignments != [] {
      var front, last := assignments[..|assignments| - 1], assignments[|assignments| - 1];
      var before := NewRoles(t, front, found);
      NewRolesExact(t, front, found, id);
      assert assignments == front + [last];
      RolesInSnoc(t, front, last, id);
      assert id in before <==> multiset(before)[id] > 0;
      assert multiset(before + [last.roleID])[id] == multiset(before)[id] + if last.roleID == id then 1 else 0;
    }
  }

  lemma NewRolesMembers(t: RoleTables, assignments: seq<RoleAssignment>, found: set<string>)
    ensures forall id :: id in NewRoles(t, assignments, found) <==> id in RolesIn(t, assignments) && id !in found
  {
  }

  /** `FoundMap` after a page has been scanned. */
  ghost function Recorded(found: map<string, bool>, ids: seq<string>): map<string, bool> {
    found + map id | id in ids :: true
  }

  lemma RecordedNone(found: map<string, bool>)
    ensures Recorded(found, []) == found
  {
  }

  lemma RecordedSnoc(found: map<string, bool>, ids: seq<string>, id: string)
    ensures Recorded(found, ids + [id]) == Recorded(found, ids)[id := true]
    ensures forall x :: x in Recorded(found, ids) <==> x in found || x in ids
  {
  }

  /** What one call returns, given the order in which it visits the organisation roles. */
  ghost function ListCall(t: RoleTables, json: Json, server: Server, token: string, order: seq<string>): Result<ListPage>
    requires Enumerates(order, t.organization.Keys)
  {
    match ParseToken(json, token)
    case Err(e) => Err(e)
    case Ok((cursor, found)) =>
      match server.GetRoleAssignments(cursor)
      case Err(e) => Err(e)
      case Ok(page) =>
        var newIds := NewRoles(t, page.assignments, found.Keys);
        var ids := (if cursor == "" then order else []) + newIds;
        Ok(ListPage(TableResources(t, ids), PrintToken(json, page.nextCursor, Some(Recorded(found, newIds)))))
  }

  /** A call fails exactly when its token cannot be decoded or the server has no answer for its cursor. */
  lemma ListCallFails(t: RoleTables, json: Json, server: Server, token: string, order: seq<string>)
    requires Enumerates(order, t.organization.Keys)
    ensures var st := json.decode(token);
            ListCall(t, json, server, token, order).Err? <==>
            if token == "" then !server.up || "" !in server.pages
            else st.None? || !server.up || st.value.cursor !in server.pages
  {
  }

  ghost predicate OrganizationRolesIn(t: RoleTables, order: seq<string>, r: Result<seq<Resource>>) {
    Enumerates(order, t.organization.Keys) && r == Ok(TableResources(t, order))
  }

  /** The loop over the organisation roles, in whatever order the map yields them. */
  method OrganizationRoleResources(t: RoleTables) returns (r: Result<seq<Resource>>)
    ensures exists order :: OrganizationRolesIn(t, order, r)
  {
    var ret: seq<Resource> := [];
    ghost var order: seq<string> := [];
    var todo := t.organization.Keys;
    while todo != {}
      invariant todo <= t.organization.Keys
      invariant multiset(order) + multiset(todo) == multiset(t.organization.Keys)
      invariant ret == TableResources(t, order)
    {
      var orgRoleID :| orgRoleID in todo;
      match EnterpriseRoleResource(t, orgRoleID)
      case Err(e) => return Err(e);
      case Ok(res) => ret := ret + [res];
      TableResourcesAppend(t, order, [orgRoleID]);
      order := order + [orgRoleID];
      todo := todo - {orgRoleID};
    }
    r := Ok(ret);
    assert OrganizationRolesIn(t, order, r);
  }

  /** The loop over one page's assignments: skips roles already found and roles that are not system
      roles, and records the rest. */
  method NewRoleResources(t: RoleTables, bag: EnterpriseRolesPagination, assignments: seq<RoleAssignment>)
    returns (r: Result<seq<Resource>>)
    requires bag.FoundMap.Some?
    modifies bag`FoundMap
    ensures r == Ok(TableResources(t, NewRoles(t, assignments, old(bag.FoundMap.value).Keys)))
    ensures bag.FoundMap == Some(Recorded(old(bag.FoundMap.value),
                                          NewRoles(t, assignments, old(bag.FoundMap.value).Keys)))
  {
    ghost var found := bag.FoundMap.value;
    ghost var added: seq<string> := [];
    var ret: seq<Resource> := [];
    RecordedNone(found);
    for k := 0 to |assignments|
      invariant added == NewRoles(t, assignments[..k], found.Keys)
      invariant bag.FoundMap == Some(Recorded(found, added))
      invariant ret == TableResources(t, added)
    {
      var roleID := assignments[k].roleID;
      assert assignments[..k + 1][..k] == assignments[..k];
      RecordedSnoc(found, added, roleID);
      if roleID in bag.FoundMap.value {
        continue;
      }
      if roleID !in t.system {
        continue;
      }
      match EnterpriseRoleResource(t, roleID)
      case Err(e) => return Err(e);
      case Ok(res) => ret := ret + [res];
      TableResourcesAppend(t, added, [roleID]);
      added := added + [roleID];
      bag.FoundMap := Some(bag.FoundMap.value[roleID := true]);
    }
    assert assignments[..|assignments|] == assignments;
    r := Ok(ret);
  }

  /** `r` is what the call returns when it visits the organisation roles in this order. */
  ghost predicate ListedIn(t: RoleTables, json: Json, server: Server, token: string, order: seq<string>, r: Result<ListPage>) {
    && Enumerates(order, t.organization.Keys)
    && match ListCall(t, json, server, token, order)
       case Err(_) => r.Err?
       case Ok(page) => r == Ok(page)
  }

  method List(t: RoleTables, json: Json, server: Server, token: string) returns (r: Result<ListPage>)
    ensures exists order :: ListedIn(t, json, server, token, order, r)
  {
    ghost var order := AnyOrder(t.organization.Keys);
    var ret: seq<Resource> := [];
    var parsed := ParseRolesPageToken(json, token);
    if parsed.Err? {
      assert ListedIn(t, json, server, token, order, Err(parsed.error));
      return Err(parsed.error);
    }
    var bag := parsed.value;
    ghost var cursor, found := bag.Cursor, bag.FoundMap.value;
    if bag.Cursor == "" {
      var orgs := OrganizationRoleResources(t);
      order :| OrganizationRolesIn(t, order, orgs);
      ret := orgs.value;
    }
    ghost var orgIds := if cursor == "" then order else [];
    assert ret == TableResources(t, orgIds);

    var reply := server.GetRoleAssignments(bag.Cursor);
    if reply.Err? {
      assert ListedIn(t, json, server, token, order, Err(reply.error));
      return Err(reply.error);
    }
    bag.Cursor := reply.value.nextCursor;
    var added := NewRoleResources(t, bag, reply.value.assignments);
    TableResourcesAppend(t, orgIds, NewRoles(t, reply.value.assignments, found.Keys));
    ret := ret + added.value;
    var nextToken := bag.Marshal(json);
    r := Ok(ListPage(ret, nextToken));
    assert ListedIn(t, json, server, token, order, r);
  }

  /** Every finite set can be listed. */
  ghost function AnyOrder(s: set<string>): (order: seq<string>)
    ensures Enumerates(order, s)
  {
    if s == {} then []
    else
      var x :| x in s;
      assert s == {x} + (s - {x});
      [x] + AnyOrder(s - {x})
  }

  // ----- Grants of one enterprise role

  /** What a page of a role's grants is: nothing for an organisation role, otherwise one grant for each
      assignment, in order. */
  ghost predicate GrantedIn(t: RoleTables, role: Resource, reply: Result<Page>, r: Result<(seq<Grant>, string)>) {
    if role.id.resource in t.organization then r == Ok(([], ""))
    else
      match reply
      case Err(_) => r.Err?
      case Ok(page) =>
        && r.Ok? && r.value.1 == page.nextCursor && |r.value.0| == |page.assignments|
        && forall k :: 0 <= k < |r.value.0| ==>
             r.value.0[k] == NewGrant(role, ROLE_ASSIGNMENT_ENTITLEMENT, ResourceId(USER, page.assignments[k].userID))
  }

  /** One page of a role's grants. Organisation roles have none here: they are emitted with the users of
      the workspaces. */
  method RoleGrants(t: RoleTables, role: Resource, reply: Result<Page>) returns (r: Result<(seq<Grant>, string)>)
    ensures GrantedIn(t, role, reply, r)
  {
    if role.id.resource in t.organization {
      return Ok(([], ""));
    }
    if reply.Err? {
      return Err(reply.error);
    }
    var rv: seq<Grant> := [];
    for k := 0 to |reply.value.assignments|
      invariant |rv| == k
      invariant forall i :: 0 <= i < k ==>
        rv[i] == NewGrant(role, ROLE_ASSIGNMENT_ENTITLEMENT, ResourceId(USER, reply.value.assignments[i].userID))
    {
      rv := rv + [NewGrant(role, ROLE_ASSIGNMENT_ENTITLEMENT, ResourceId(USER, reply.value.assignments[k].userID))];
    }
    r := Ok((rv, reply.value.nextCursor));
  }

  /** Every grant on a system role in full: on that role, held by the assigned user. */
  lemma GrantedInFull(t: RoleTables, role: Resource, page: Page, r: Result<(seq<Grant>, string)>, k: nat)
    requires GrantedIn(t, role, Ok(page), r) && role.id.resource !in t.organization
    requires role.id.resourceType == ENTERPRISE_ROLE && k < |page.assignments|
    ensures var g, user := r.value.0[k], page.assignments[k].userID;
            && g.entitlement.resource == role && g.principal == ResourceId("user", user)
            && g.id == "enterpriseRole:" + role.id.resource + ":assigned:user:" + user
  {
    assert "enterpriseRole" + ":" == "enterpriseRole:";
    assert ":" + "assigned" + ":" + "user" + ":" == ":assigned:user:";
    GrantTail("enterpriseRole:" + role.id.resource, page.assignments[k].userID);
  }

  lemma GrantTail(head: string, user: string)
    ensures head + ":" + "assigned" + ":" + "user" + ":" + user == head + (":" + "assigned" + ":" + "user" + ":") + user
  {
  }
}
