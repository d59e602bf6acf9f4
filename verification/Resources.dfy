/** Resources, entitlements and grants as the connector hands them to the sync engine. */
module Resources {

  datatype Option<+T> = None | Some(value: T) {
    function GetOr(default: T): T {
      if Some? then value else default
    }
  }

  datatype Result<+T> = Ok(value: T) | Err(error: string)

  /** How a provisioning operation ends. The middle two are successes that changed nothing. */
  datatype Outcome = Done | AlreadyExists | AlreadyRevoked | Failed

  datatype ResourceId = ResourceId(resourceType: string, resource: string)

  datatype Resource = Resource(id: ResourceId, displayName: string, parent: Option<ResourceId>)

  datatype Entitlement = Entitlement(id: string, resource: Resource)

  datatype Grant = Grant(id: string, entitlement: Entitlement, principal: ResourceId)

  const USER := "user"
  const WORKSPACE := "workspace"
  const GROUP := "group"
  const WORKSPACE_ROLE := "workspaceRole"
  const ENTERPRISE_ROLE := "enterpriseRole"

  const MEMBER_ENTITLEMENT := "member"
  const ROLE_ASSIGNMENT_ENTITLEMENT := "assigned"

  /** Entitlement IDs join resource type, resource and permission with colons. */
  function EntitlementId(resource: Resource, permission: string): string {
    resource.id.resourceType + ":" + resource.id.resource + ":" + permission
  }

  function NewEntitlement(resource: Resource, permission: string): Entitlement {
    Entitlement(EntitlementId(resource, permission), resource)
  }

  /** Grant IDs append the principal's type and ID to the entitlement ID. */
  function NewGrant(resource: Resource, permission: string, principal: ResourceId): Grant {
    Grant(EntitlementId(resource, permission) + ":" + principal.resourceType + ":" + principal.resource,
          NewEntitlement(resource, permission), principal)
  }

  /** All results, or the first error. */
  function Collect<T>(results: seq<Result<T>>): Result<seq<T>> {
    if results == [] then Ok([])
    else if results[0].Err? then Err(results[0].error)
    else
      match Collect(results[1..])
      case Err(e) => Err(e)
      case Ok(rest) => Ok([results[0].value] + rest)
  }

  lemma {:induction false} CollectSnoc<T>(results: seq<Result<T>>, last: Result<T>)
    ensures Collect(results + [last]) ==
            match Collect(results)
            case Err(e) => Err(e)
            case Ok(values) => if last.Err? then Err(last.error) else Ok(values + [last.value])
  {
    if results != [] {
      assert (results + [last])[1..] == results[1..] + [last];
      CollectSnoc(results[1..], last);
      if Collect(results).Ok? && last.Ok? {
        var rest := Collect(results[1..]).value;
        assert [results[0].value] + (rest + [last.value]) == [results[0].value] + rest + [last.value];
      }
    } else {
      assert results + [last] == [last];
      if last.Ok? {
        assert [last.value] + [] == [] + [last.value];
      }
    }
  }

  /** An error anywhere makes the whole list an error. */
  lemma {:induction false} CollectError<T>(results: seq<Result<T>>, k: nat)
    requires k < |results| && results[k].Err?
    ensures Collect(results).Err?
  {
    if k > 0 && results[0].Ok? {
      CollectError(results[1..], k - 1);
    }
  }

  /** It is the first error that is returned. */
  lemma {:induction false} CollectFirstError<T>(results: seq<Result<T>>, k: nat)
    requires k < |results| && results[k].Err? && forall j :: 0 <= j < k ==> results[j].Ok?
    ensures Collect(results) == Err(results[k].error)
  {
    if k > 0 {
      CollectFirstError(results[1..], k - 1);
    }
  }

  lemma {:induction false} CollectPrefixError<T>(results: seq<Result<T>>, n: nat)
    requires n <= |results| && Collect(results[..n]).Err?
    ensures Collect(results) == Collect(results[..n])
  {
    if n > 0 {
      assert results[..n][1..] == results[1..][..n - 1];
      if results[0].Ok? {
        CollectPrefixError(results[1..], n - 1);
      }
    }
  }

  /** When nothing fails the values come back in order, one for one. */
  lemma {:induction false} CollectOk<T>(results: seq<Result<T>>)
    requires forall k :: 0 <= k < |results| ==> results[k].Ok?
    ensures Collect(results).Ok? && |Collect(results).value| == |results|
    ensures forall k :: 0 <= k < |results| ==> Collect(results).value[k] == results[k].value
  {
    if results != [] {
      CollectOk(results[1..]);
    }
  }

  /** The generic converter: every object in order, or the first conversion error. */
  method MakeResourceList<T>(objects: seq<T>, parent: Option<ResourceId>,
                             toResource: (T, Option<ResourceId>) -> Result<Resource>)
    returns (output: Result<seq<Resource>>)
    ensures output == Collect(Converted(objects, parent, toResource))
  {
    ghost var results := Converted(objects, parent, toResource);
    var outputSlice: seq<Resource> := [];
    for k := 0 to |objects|
      invariant Collect(results[..k]) == Ok(outputSlice)
    {
      var next := toResource(objects[k], parent);
      assert results[..k + 1] == results[..k] + [results[k]];
      CollectSnoc(results[..k], results[k]);
      if next.Err? {
        CollectPrefixError(results, k + 1);
        return Err(next.error);
      }
      outputSlice := outputSlice + [next.value];
    }
    assert results[..|objects|] == results;
    output := Ok(outputSlice);
  }

  function Converted<T>(objects: seq<T>, parent: Option<ResourceId>,
                        toResource: (T, Option<ResourceId>) -> Result<Resource>): (results: seq<Result<Resource>>)
    ensures |results| == |objects|
    ensures forall k :: 0 <= k < |objects| ==> results[k] == toResource(objects[k], parent)
  {
    seq(|objects|, i requires 0 <= i < |objects| => toResource(objects[i], parent))
  }
}
