/** Offset paging over the SCIM API, for IDP groups and for users. A token is the decimal text of the
    1-based index of the next item; the next index is the current one plus the limit, whatever the
    server returned. */
module ScimPaging {
  import opened Resources
  import opened Decimal

  const PAGE_SIZE_DEFAULT := 100
  const STARTING_OFFSET := 1

  // ----- The server: section 3.4.2.4 of RFC 7644

  datatype Reply<T> = Reply(resources: seq<T>, totalResults: int)

  /** A server that holds `items` and returns at most `cap` of them a request. */
  datatype Server<T> = Server(items: seq<T>, cap: nat, up: bool) {
    /** Indices below 1 mean 1 and a negative count means 0. */
    function Fetch(startIndex: int, count: int): Result<Reply<T>> {
      if !up then Err("error fetching SCIM page")
      else
        var first := if startIndex < 1 then 1 else startIndex;
        var wanted := if count < 0 then 0 else if count > cap then cap else count;
        var lo := if first - 1 > |items| then |items| else first - 1;
        var hi := if lo + wanted > |items| then |items| else lo + wanted;
        Ok(Reply(items[lo..hi], |items|))
    }
  }

  // ----- The two listings

  function PaginationOf(token: string, size: int): Result<(int, int)> {
    var limit := if size > 0 then size else PAGE_SIZE_DEFAULT;
    if token == "" then Ok((STARTING_OFFSET, limit))
    else
      match Atoi(token)
      case Err(e) => Err(e)
      case Ok(offset) => Ok((offset, limit))
  }

  method ParsePaginationToken(tokenStr: string, tokenSize: int) returns (r: Result<(int, int)>)
    ensures r == PaginationOf(tokenStr, tokenSize)
  {
    var limit, offset := PAGE_SIZE_DEFAULT, STARTING_OFFSET;
    if tokenSize > 0 {
      limit := tokenSize;
    }
    if tokenStr != "" {
      match Atoi(tokenStr)
      case Err(e) => return Err(e);
      case Ok(parsedOffset) => offset := parsedOffset;
    }
    r := Ok((offset, limit));
  }

  /** The groups' stop rule. */
  function GetNextToken(offset: int, limit: int, total: int): string {
    var nextOffset := Wrap(offset + limit);
    if nextOffset > total then "" else Itoa(nextOffset)
  }

  /** The users' stop rule, written out separately in the source. */
  function NextUserToken(startIndex: int, count: int, total: int): string {
    if total > Wrap(Wrap(startIndex + count) - 1) then Itoa(Wrap(startIndex + count)) else ""
  }

  /** The two rules give the same token unless the next offset wraps around to exactly the smallest
      `int`: then the groups' rule goes on and the users' rule stops. */
  lemma StopRulesAgree(offset: int, limit: int, total: int)
    requires IsInt(offset) && IsInt(limit) && IsInt(total)
    ensures GetNextToken(offset, limit, total) == NextUserToken(offset, limit, total)
            <==> Wrap(offset + limit) != MIN_INT
    ensures IsInt(offset + limit) && offset >= 1 && limit >= 1
            ==> GetNextToken(offset, limit, total) == NextUserToken(offset, limit, total)
  {
  }

  /** At that one next offset the rules really do differ, whatever the total. */
  lemma StopRulesDiffer(offset: int, limit: int, total: int)
    requires IsInt(offset) && IsInt(limit) && IsInt(total) && offset + limit == MAX_INT + 1
    ensures GetNextToken(offset, limit, total) == Itoa(MIN_INT)
    ensures NextUserToken(offset, limit, total) == ""
  {
    assert Wrap(offset + limit) == MIN_INT;
    assert Wrap(MIN_INT - 1) == MAX_INT;
  }

  datatype Rule = Groups | Users

  function LimitOf(rule: Rule, size: int): (limit: int)
    ensures limit > 0
  {
    if rule.Groups? && size > 0 then size else PAGE_SIZE_DEFAULT
  }

  function NextToken(rule: Rule, offset: int, limit: int, total: int): string {
    match rule
    case Groups => GetNextToken(offset, limit, total)
    case Users => NextUserToken(offset, limit, total)
  }

  datatype Page<T> = Page(items: seq<T>, nextToken: string)

  /** What one listing call gets from the server and which token it hands back. */
  function ListCall<T>(rule: Rule, server: Server<T>, token: string, size: int): Result<Page<T>> {
    match PaginationOf(token, LimitOf(rule, size))
    case Err(e) => Err(e)
    case Ok((offset, limit)) =>
      match server.Fetch(offset, limit)
      case Err(e) => Err(e)
      case Ok(reply) => Ok(Page(reply.resources, NextToken(rule, offset, limit, reply.totalResults)))
  }

  /** A call fails exactly when its token is no number or the server does not answer. */
  lemma ListCallFails<T>(rule: Rule, server: Server<T>, token: string, size: int)
    ensures ListCall(rule, server, token, size).Err? <==> !server.up || (token != "" && Atoi(token).Err?)
  {
  }

  datatype GroupRecord = GroupRecord(id: string, displayName: string)

  function GroupResource(group: GroupRecord, parent: Option<ResourceId>): Result<Resource> {
    Ok(Resource(ResourceId(GROUP, group.id), group.displayName, None))
  }

  method ListGroups(server: Server<GroupRecord>, parent: Option<ResourceId>, token: string, size: int)
    returns (r: Result<(seq<Resource>, string)>)
    ensures var call := ListCall(Groups, server, token, size);
            match call
            case Err(_) => r.Err?
            case Ok(page) =>
              && r.Ok? && r.value.1 == page.nextToken && |r.value.0| == |page.items|
              && forall k :: 0 <= k < |page.items| ==> Ok(r.value.0[k]) == GroupResource(page.items[k], parent)
  {
    var parsed := ParsePaginationToken(token, size);
    if parsed.Err? {
      return Err(parsed.error);
    }
    var (offset, limit) := parsed.value;
    var reply := server.Fetch(offset, limit);
    if reply.Err? {
      return Err(reply.error);
    }
    var groups := MakeResourceList(reply.value.resources, parent, GroupResource);
    CollectOk(Converted(reply.value.resources, parent, GroupResource));
    var nextToken := GetNextToken(offset, limit, reply.value.totalResults);
    r := Ok((groups.value, nextToken));
  }

  /** What a group and a user are listed as. */
  lemma ListedFields(group: GroupRecord, parent: Option<ResourceId>, user: UserRecord)
    ensures GroupResource(group, parent).Ok? && ScimUserResource(user).Ok?
    ensures var r := GroupResource(group, parent).value;
            r.id.resourceType == "group" && r.id.resource == group.id && r.displayName == group.displayName
    ensures var r := ScimUserResource(user).value;
            && r.id.resourceType == "user" && r.id.resource == user.id
            && (user.displayName != "" ==> r.displayName == user.displayName)
            && (user.displayName == "" ==> r.displayName == user.userName)
  {
  }

  datatype UserRecord = UserRecord(id: string, userName: string, displayName: string)

  function ScimUserResource(user: UserRecord): Result<Resource> {
    Ok(Resource(ResourceId(USER, user.id), if user.displayName == "" then user.userName else user.displayName, None))
  }

  ghost predicate UsersListed(call: Result<Page<UserRecord>>, r: Result<(seq<Resource>, string)>) {
    match call
    case Err(_) => r.Err?
    case Ok(page) =>
      && r.Ok? && r.value.1 == page.nextToken && |r.value.0| == |page.items|
      && forall k :: 0 <= k < |page.items| ==> Ok(r.value.0[k]) == ScimUserResource(page.items[k])
  }

  lemma AnySize(server: Server<UserRecord>, token: string)
    ensures forall size :: ListCall(Users, server, token, size) == ListCall(Users, server, token, 0)
  {
  }

  /** The count does not depend on the page size that is asked for. */
  method ListUsers(server: Server<UserRecord>, token: string) returns (r: Result<(seq<Resource>, string)>)
    ensures forall size :: UsersListed(ListCall(Users, server, token, size), r)
  {
    AnySize(server, token);
    var startIndex := 1;
    if token != "" {
      match Atoi(token)
      case Err(e) => return Err(e);
      case Ok(parsed) => startIndex := parsed;
    }
    var count := 100;
    var reply := server.Fetch(startIndex, count);
    if reply.Err? {
      return Err(reply.error);
    }
    var response := reply.value;
    var rv: seq<Resource> := [];
    for k := 0 to |response.resources|
      invariant |rv| == k
      invariant forall i :: 0 <= i < k ==> Ok(rv[i]) == ScimUserResource(response.resources[i])
    {
      match ScimUserResource(response.resources[k])
      case Err(e) => return Err(e);
      case Ok(res) => rv := rv + [res];
    }
    var nextPageToken := "";
    if response.totalResults > Wrap(Wrap(startIndex + count) - 1) {
      nextPageToken := Itoa(Wrap(startIndex + count));
    }
    r := Ok((rv, nextPageToken));
  }
}
