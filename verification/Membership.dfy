/** User-group and IDP-group membership. Both APIs offer "read all members" and "replace all members",
    so `userGroup.Grant`, `userGroup.Revoke` and `RemoveUserFromGroup` are read-modify-write; only
    `AddUserToGroup` is a single server operation. */
module Membership {
  import opened Resources
  import opened Text

  // ----- Member lists

  /** `xs` is `ys` with some elements left out. */
  ghost predicate Subsequence<T>(xs: seq<T>, ys: seq<T>) {
    || xs == []
    || (ys != [] && Subsequence(xs, ys[..|ys| - 1]))
    || (ys != [] && xs[|xs| - 1] == ys[|ys| - 1] && Subsequence(xs[..|xs| - 1], ys[..|ys| - 1]))
  }

  /** Appending an element to the longer list, or to both, keeps the relation. */
  lemma SubsequenceSnoc<T>(xs: seq<T>, ys: seq<T>, last: T)
    requires Subsequence(xs, ys)
    ensures Subsequence(xs, ys + [last])
    ensures Subsequence(xs + [last], ys + [last])
  {
    assert (ys + [last])[..|ys|] == ys && (xs + [last])[..|xs|] == xs;
  }

  lemma {:induction false} SubsequenceOfItself<T>(xs: seq<T>)
    ensures Subsequence(xs, xs)
  {
    if xs != [] {
      SubsequenceOfItself(xs[..|xs| - 1]);
    }
  }

  function Added(members: seq<string>, user: string): seq<string> {
    if user in members then members else members + [user]
  }

  /** The members without `user`, in order. */
  function Removed(members: seq<string>, user: string): seq<string> {
    if members == [] then []
    else
      var front := Removed(members[..|members| - 1], user);
      if members[|members| - 1] == user then front else front + [members[|members| - 1]]
  }

  lemma {:induction false} RemovedExact(members: seq<string>, user: string)
    ensures user !in Removed(members, user)
    ensures forall m :: m != user ==> multiset(Removed(members, user))[m] == multiset(members)[m]
    ensures user !in members <==> Removed(members, user) == members
    ensures Subsequence(Removed(members, user), members)
  {
    if members != [] {
      var front, last := members[..|members| - 1], members[|members| - 1];
      assert members == front + [last];
      RemovedExact(front, user);
    }
    RemovedKeepsOrder(members, user);
  }

  lemma {:induction false} RemovedKeepsOrder(members: seq<string>, user: string)
    ensures Subsequence(Removed(members, user), members)
  {
    if members != [] {
      var front, last := members[..|members| - 1], members[|members| - 1];
      assert members == front + [last];
      RemovedKeepsOrder(front, user);
      SubsequenceSnoc(Removed(front, user), front, last);
    }
  }

  lemma {:induction false} RemovedAppend(a: seq<string>, b: seq<string>, user: string)
    ensures Removed(a + b, user) == Removed(a, user) + Removed(b, user)
  {
    if b == [] {
      assert a + b == a;
    } else {
      assert (a + b)[..|a + b| - 1] == a + b[..|b| - 1];
      RemovedAppend(a, b[..|b| - 1], user);
    }
  }

  /** Grant and Revoke are each idempotent and leave everybody else alone: the list without the user is the
      same before and after, in order and multiplicity. */
  lemma AddRemoveIdempotent(members: seq<string>, user: string)
    ensures Added(Added(members, user), user) == Added(members, user)
    ensures Removed(Removed(members, user), user) == Removed(members, user)
    ensures Removed(Added(members, user), user) == Removed(members, user)
    ensures forall m :: m != user ==> multiset(Added(members, user))[m] == multiset(members)[m]
    ensures forall m :: m != user ==> multiset(Removed(members, user))[m] == multiset(members)[m]
  {
    RemovedExact(members, user);
    RemovedExact(Removed(members, user), user);
    RemovedAppend(members, [user], user);
    assert Removed([user], user) == [];
  }

  /** Grant then Revoke restores the exact list of a user who was absent; Revoke then Grant restores the
      membership of one who was present. */
  lemma AddRemoveInverse(members: seq<string>, user: string)
    ensures user !in members ==> Removed(Added(members, user), user) == members
    ensures user in members ==> forall m :: m in Added(Removed(members, user), user) <==> m in members
  {
    RemovedExact(members, user);
    if user !in members {
      RemovedAppend(members, [user], user);
      assert Removed([user], user) == [];
    } else {
      RemovedMembers(members, user);
    }
  }

  lemma RemovedMembers(members: seq<string>, user: string)
    ensures forall m :: m in Removed(members, user) <==> m in members && m != user
  {
  }

  // ----- The wire form of a user group's member list

  /** What the server reads from the comma-joined list of an update. The empty text is the one case that
      names no list: a server may take it to clear the group or refuse the update. */
  function OnWire(members: seq<string>, refusesEmpty: bool): Option<seq<string>> {
    var text := Join(members, ',');
    if text != "" then Some(Split(text, ','))
    else if refusesEmpty then None
    else Some([])
  }

  /** IDs a list can carry: not empty and without a comma. */
  ghost predicate Sendable(members: seq<string>) {
    FreeOf(',', members) && "" !in members
  }

  /** A list of sendable IDs arrives as sent, unless it is empty and the server refuses that. */
  lemma WireRoundTrip(members: seq<string>, refusesEmpty: bool)
    requires Sendable(members)
    ensures OnWire(members, refusesEmpty) == if members == [] && refusesEmpty then None else Some(members)
  {
    if members != [] {
      SplitInvertsJoin(members, ',');
      assert Split("", ',') == [""];
    }
  }

  /** In general a list arrives as sent exactly when no ID has a comma and it is not the one-element list
      of the empty ID. */
  lemma WireExact(members: seq<string>)
    ensures OnWire(members, false) == Some(members) <==> FreeOf(',', members) && members != [""]
  {
    SplitInvertsJoin(members, ',');
    JoinOfSplit(Join(members, ','), ',');
    if FreeOf(',', members) && members != [] {
      assert Split("", ',') == [""];
    }
  }

  /** The list an update through the SCIM API arrives as. The list without the last member is a nil slice,
      which is sent as `null`: a server may take it to clear the group or refuse it. */
  function OnPatch(members: seq<string>, refusesEmpty: bool): Option<seq<string>> {
    if members == [] && refusesEmpty then None else Some(members)
  }

  // ----- What the operations make of a list when both server calls are let through

  function GrantedList(members: seq<string>, user: string, refusesEmpty: bool): seq<string> {
    if user in members then members else OnWire(Added(members, user), refusesEmpty).GetOr(members)
  }

  function RevokedList(members: seq<string>, user: string, refusesEmpty: bool): seq<string> {
    if user !in members then members else OnWire(Removed(members, user), refusesEmpty).GetOr(members)
  }

  function PatchedList(members: seq<string>, user: string, refusesEmpty: bool): seq<string> {
    if user !in members then members else OnPatch(Removed(members, user), refusesEmpty).GetOr(members)
  }

  // ----- Servers

  /** A user group. The two flags say whether the next read and the next update succeed. */
  class UserGroup {
    var members: seq<string>
    const refusesEmpty: bool
    var readable: bool
    var writable: bool

    constructor (members: seq<string>, refusesEmpty: bool)
      ensures this.members == members && this.refusesEmpty == refusesEmpty && readable && writable
    {
      this.members, this.refusesEmpty, readable, writable := members, refusesEmpty, true, true;
    }

    method GetUserGroupMembers() returns (r: Result<seq<string>>)
      ensures r == if readable then Ok(members) else Err("failed to get user group members")
    {
      r := if readable then Ok(members) else Err("failed to get user group members");
    }

    method UpdateUserGroupMembers(users: seq<string>) returns (ok: bool)
      modifies this`members
      ensures ok <==> writable && OnWire(users, refusesEmpty).Some?
      ensures members == if ok then OnWire(users, refusesEmpty).value else old(members)
    {
      var read := OnWire(users, refusesEmpty);
      ok := writable && read.Some?;
      if ok {
        members := read.value;
      }
    }
  }

  method GrantUserGroup(group: UserGroup, principal: ResourceId) returns (outcome: Outcome)
    modifies group`members
    ensures principal.resourceType != USER || !group.readable ==> outcome == Failed && group.members == old(group.members)
    ensures principal.resourceType == USER && group.readable && principal.resource in old(group.members)
            ==> outcome == AlreadyExists && group.members == old(group.members)
    ensures principal.resourceType == USER && group.readable && principal.resource !in old(group.members)
            ==> var sent := OnWire(Added(old(group.members), principal.resource), group.refusesEmpty);
                && (outcome == if group.writable && sent.Some? then Done else Failed)
                && group.members == if outcome == Done then sent.value else old(group.members)
    ensures group.members == if principal.resourceType == USER && group.readable && group.writable
                             then GrantedList(old(group.members), principal.resource, group.refusesEmpty)
                             else old(group.members)
  {
    if principal.resourceType != USER {
      return Failed;
    }
    var userID := principal.resource;
    var fetched := group.GetUserGroupMembers();
    if fetched.Err? {
      return Failed;
    }
    var currentMembers := fetched.value;
    for k := 0 to |currentMembers|
      invariant userID !in currentMembers[..k]
    {
      if currentMembers[k] == userID {
        return AlreadyExists;
      }
    }
    currentMembers := currentMembers + [userID];
    var ok := group.UpdateUserGroupMembers(currentMembers);
    outcome := if ok then Done else Failed;
  }

  method RevokeUserGroup(group: UserGroup, principal: ResourceId) returns (outcome: Outcome)
    modifies group`members
    ensures principal.resourceType != USER || !group.readable ==> outcome == Failed && group.members == old(group.members)
    ensures principal.resourceType == USER && group.readable && principal.resource !in old(group.members)
            ==> outcome == AlreadyRevoked && group.members == old(group.members)
    ensures principal.resourceType == USER && group.readable && principal.resource in old(group.members)
            ==> var sent := OnWire(Removed(old(group.members), principal.resource), group.refusesEmpty);
                && (outcome == if group.writable && sent.Some? then Done else Failed)
                && group.members == if outcome == Done then sent.value else old(group.members)
    ensures group.members == if principal.resourceType == USER && group.readable && group.writable
                             then RevokedList(old(group.members), principal.resource, group.refusesEmpty)
                             else old(group.members)
  {
    if principal.resourceType != USER {
      return Failed;
    }
    var userID := principal.resource;
    var fetched := group.GetUserGroupMembers();
    if fetched.Err? {
      return Failed;
    }
    var currentMembers := fetched.value;
    var found, newMembers := false, [];
    for k := 0 to |currentMembers|
      invariant found <==> userID in currentMembers[..k]
      invariant newMembers == Removed(currentMembers[..k], userID)
    {
      assert currentMembers[..k + 1][..k] == currentMembers[..k];
      if currentMembers[k] == userID {
        found := true;
      } else {
        newMembers := newMembers + [currentMembers[k]];
      }
    }
    assert currentMembers[..|currentMembers|] == currentMembers;
    if !found {
      return AlreadyRevoked;
    }
    var ok := group.UpdateUserGroupMembers(newMembers);
    outcome := if ok then Done else Failed;
  }

  /** An IDP group behind the SCIM API. Adding a member that is present changes nothing (section 3.5.2.1
      of RFC 7644). */
  class IdpGroup {
    var members: seq<string>
    const refusesEmpty: bool
    var readable: bool
    var writable: bool

    constructor (members: seq<string>, refusesEmpty: bool)
      ensures this.members == members && this.refusesEmpty == refusesEmpty && readable && writable
    {
      this.members, this.refusesEmpty, readable, writable := members, refusesEmpty, true, true;
    }

    method GetMembers() returns (r: Result<seq<string>>)
      ensures r == if readable then Ok(members) else Err("error fetching IDP group")
    {
      r := if readable then Ok(members) else Err("error fetching IDP group");
    }

    method PatchAdd(user: string) returns (ok: bool)
      modifies this`members
      ensures ok <==> writable
      ensures members == if ok then Added(old(members), user) else old(members)
    {
      ok := writable;
      if ok {
        members := Added(members, user);
      }
    }

    method PatchReplace(users: seq<string>) returns (ok: bool)
      modifies this`members
      ensures ok <==> writable && (users != [] || !refusesEmpty)
      ensures members == if ok then users else old(members)
    {
      ok := writable && (users != [] || !refusesEmpty);
      if ok {
        members := users;
      }
    }
  }

  /** `Ok(true)` when the user was removed, `Ok(false)` when there was nothing to remove. */
  method RemoveUserFromGroup(group: IdpGroup, user: string) returns (r: Result<bool>)
    modifies group`members
    ensures r == if !group.readable then Err("error fetching IDP group")
                 else if user !in old(group.members) then Ok(false)
                 else if !group.writable || OnPatch(Removed(old(group.members), user), group.refusesEmpty).None?
                 then Err("error removing user from IDP group")
                 else Ok(true)
    ensures group.members == if r == Ok(true) then Removed(old(group.members), user) else old(group.members)
    ensures group.members == if group.readable && group.writable
                             then PatchedList(old(group.members), user, group.refusesEmpty)
                             else old(group.members)
  {
    var fetched := group.GetMembers();
    if fetched.Err? {
      return Err("error fetching IDP group");
    }
    var existing := fetched.value;
    var found, result := false, [];
    for k := 0 to |existing|
      invariant found <==> user in existing[..k]
      invariant result == Removed(existing[..k], user)
    {
      assert existing[..k + 1][..k] == existing[..k];
      if existing[k] == user {
        found := true;
      } else {
        result := result + [existing[k]];
      }
    }
    assert existing[..|existing|] == existing;
    if !found {
      return Ok(false);
    }
    var ok := group.PatchReplace(result);
    r := if ok then Ok(true) else Err("error removing user from IDP group");
  }

  method GrantIdpGroup(group: IdpGroup, principal: ResourceId, govEnv: bool) returns (outcome: Outcome)
    modifies group`members
    ensures outcome == if govEnv || principal.resourceType != USER || !group.writable then Failed else Done
    ensures group.members == if outcome == Done then Added(old(group.members), principal.resource) else old(group.members)
  {
    if govEnv || principal.resourceType != USER {
      return Failed;
    }
    var ok := group.PatchAdd(principal.resource);
    outcome := if ok then Done else Failed;
  }

  method RevokeIdpGroup(group: IdpGroup, principal: ResourceId, govEnv: bool) returns (outcome: Outcome)
    modifies group`members
    ensures govEnv || principal.resourceType != USER || !group.readable ==> outcome == Failed
    ensures outcome == AlreadyRevoked <==>
            !govEnv && principal.resourceType == USER && group.readable && principal.resource !in old(group.members)
    ensures outcome == Done <==> !govEnv && principal.resourceType == USER && group.readable && group.writable
                                 && principal.resource in old(group.members)
                                 && OnPatch(Removed(old(group.members), principal.resource), group.refusesEmpty).Some?
    ensures group.members == if outcome == Done then Removed(old(group.members), principal.resource) else old(group.members)
  {
    if govEnv || principal.resourceType != USER {
      return Failed;
    }
    var wasRevoked := RemoveUserFromGroup(group, principal.resource);
    if wasRevoked.Err? {
      return Failed;
    }
    outcome := if wasRevoked.value then Done else AlreadyRevoked;
  }
}
