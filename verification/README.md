# Verification model of the Slack Enterprise Grid connector

This project models the stateful logic of `baton-slack-enterprise` in Dafny and proves what its whole
runs do. The Slack server is explicit abstract state: page chains behind cursors, item lists behind SCIM
offsets, member lists, user flags, and a log of the administrative calls it received.

| file | what it models |
|---|---|
| `Text.dfy`, `Decimal.dfy` | `strings.Split`, `Join`, `Contains`; 64-bit integers, `strconv.Itoa` and `Atoi` |
| `Resources.dfy` | resources, entitlements, grants and their IDs; `MakeResourceList` |
| `EnterpriseRoles.dfy` | the role tables, the page token, one `List` call, grants of one enterprise role |
| `RoleListingRun.dfy` | whole runs of the role listing: failures, retries, restarts |
| `ScimPaging.dfy`, `ScimRun.dfy` | the group and user listings, their two stop rules, and whole runs of both |
| `Membership.dfy` | user-group and IDP-group membership as read-modify-write on the server's list |
| `Concurrency.dfy` | the same operations as interleaved read and write steps |
| `WorkspaceRoles.dfy` | the workspace-role table, role IDs and role provisioning |
| `WorkspaceGrants.dfy`, `GrantLaws.dfy` | grants derived from user flags, and their laws over all users and pages |
| `WorkspaceNames.dfy` | the workspace-name cache |
| `SlackErrors.dfy`, `SlackErrorTable.dfy` | the error classifier as first match in an ordered table, and that no literal of the table is shadowed |
| `Provisioning.dfy` | the workspace provisioning that reads codes back out of error text |
| `Sync.dfy` | the grants of a whole sync against the resources the listings emit |

Code that loops or updates state is modelled by methods and classes, each proved against a
specification function; the laws are lemmas about those functions. Runs are folds of the specification
function of one call, so a statement about every run covers every order of successes and failures.

## Main results

- **Role listing.** A run is finished exactly when the server has answered as many calls as there are
  pages; it has then emitted each organisation role once, each known system role on any page once, and
  nothing else. Failed calls, restarts from the last token and rewinds to older tokens lose nothing. Even
  when the server answers each call as it likes, no role is emitted twice, and each role it served is
  emitted once.
- **SCIM paging.** A run on decimal tokens is the same run on integer offsets, overflow included. While
  no next offset overflows and pages are filled, it gets the list in order, whatever limit each call
  uses: starting at offset 1 is right. With a page cap below the limit it loses exactly the positions
  whose place on their page is not below the cap.
- **Membership.** In every interleaving the server's list is what some of the writes give in sequence.
  The membership is the fold of everything the server carried out, all along a run, exactly when every
  write finds everybody else's membership as its operation read it; for that it is enough that no other
  write falls in between.
- **Grants.** The skip switches are filters, paging is flat, every award is given exactly once per earner,
  and no grant emitted with the workspaces names a resource that the listings do not emit. For each of
  the twelve kinds of grant it is proved by its literal ID exactly which flags make it appear.
- **IDs, cache, errors, dispatch.** Each round trip or agreement is proved with its exact condition, the
  classifier by its literals and codes, and every outcome of a revoke or grant over all Slack errors.

## Where the code differs from what one would expect

- The two hand-written SCIM stop rules are not the same function on 64-bit integers: they differ exactly
  when the next offset wraps around to the smallest integer (`ScimPaging.StopRulesAgree`). When the
  groups' next offset overflows at all, the listing starts over (`ScimRun.OverflowServesTwice`).
- Two interleaved grants to one user group can lose one of the users (`Concurrency.LostGrant`). Not every
  overlap does harm (`Concurrency.HarmlessOverlap`); the exact condition is `Concurrency.SerialExactly`.
- A workspace ID with a colon does not survive the role ID (`WorkspaceRoles.RoleIdRoundTrip`).
- Revoking the last member sends the empty text, which names no list; what happens then is the server's
  choice (`Membership.WireRoundTrip`). In the same way removing the last member of an IDP group sends a
  nil slice, that is `null` (`Membership.RemoveUserFromGroup`).
- Revoking a role that the switch does not name makes no call and succeeds
  (`WorkspaceRoles.RevokeRole`); an ID whose role part is empty can be granted but not revoked
  (`WorkspaceRoles.DispatchAgreesOnAnyId`).
- A Slack error that itself spells a code name, such as `xNotFound`, is taken for that code
  (`Provisioning.TextNamesNotFound`).
- An ultra-restricted user who is not restricted gets neither a guest role nor the member role; a deleted
  administrator keeps the administrator grant and the membership (`GrantLaws.AwardedExactly`).
- Organisation-role grants are emitted once per workspace (`Sync.OrganizationGrantsRepeat`).

## Model

| member | source | states |
|---|---|---|
| `Resources.MakeResourceList` | pkg/helpers.go:36-58 | every object is converted in order, one for one, or the first conversion error is returned |
| `Resources.CollectError` | pkg/helpers.go:51-54 | one failing conversion anywhere makes the whole list an error |
| `Resources.CollectFirstError` | pkg/helpers.go:51-54 | it is the first error that is returned |
| `Resources.CollectOk` | pkg/helpers.go:49-57 | when nothing fails the values come back in order, as many as there were objects |
| `Text.SplitInvertsJoin` | pkg/connector/client/slack.go:202 | a joined list can be split back exactly when it is non-empty and no element has the separator |
| `Text.JoinOfSplit` | pkg/helpers.go:18-32 | splitting loses nothing: joining the parts gives the text back |
| `Text.ContainsAcrossWall` | pkg/connector/workspace.go:370-374 | a word cannot straddle a character it does not have, so it occurs in a text exactly when it occurs on one side |
| `Decimal.AtoiOfItoa` | pkg/connector/group.go:78-94 | every 64-bit integer survives being printed as a token and parsed again |
| `Decimal.ItoaIsDecimal` | pkg/connector/group.go:89-95 | a token is the decimal text of its offset |
| `Decimal.AtoiRefuses` | pkg/connector/group.go:78-84 | the empty text and text with anything but digits and signs is no offset |
| `Decimal.Wrap` | pkg/connector/group.go:89-95 | 64-bit addition: congruent to the exact sum, in range, and equal to it when that is in range |
| `EnterpriseRoles.EnterpriseRoleResource` | pkg/connector/enterprise_roles.go:85-109 | a role has a resource exactly when one of the two tables lists it |
| `EnterpriseRoles.FirstSystemRoles` | pkg/connector/enterprise_roles.go:42-59 | the ID and name of the first four system roles as listed |
| `EnterpriseRoles.SecondSystemRoles` | pkg/connector/enterprise_roles.go:42-59 | of the next four |
| `EnterpriseRoles.ThirdSystemRoles` | pkg/connector/enterprise_roles.go:42-59 | of the next four |
| `EnterpriseRoles.LastSystemRoles` | pkg/connector/enterprise_roles.go:42-59 | of the last four |
| `EnterpriseRoles.OrganizationRoleNames` | pkg/connector/enterprise_roles.go:61-65 | the ID and name of the organisation roles as listed |
| `EnterpriseRoles.TokenRoundTrip` | pkg/helpers.go:60-98 | the token keeps cursor and found roles exactly when the cursor is non-empty or nothing was found; it is empty exactly when the cursor is |
| `EnterpriseRoles.EnterpriseRolesPagination.Marshal` | pkg/helpers.go:60-70 | the token text of the object's fields; empty for an empty cursor |
| `EnterpriseRoles.EnterpriseRolesPagination.Unmarshal` | pkg/helpers.go:72-84 | an empty token gives an empty map, any other the decoded fields, and undecodable text is an error |
| `EnterpriseRoles.ParseRolesPageToken` | pkg/helpers.go:86-98 | a fresh object with what the token says and never a nil map, or an error |
| `EnterpriseRoles.NewRolesExact` | pkg/connector/enterprise_roles.go:148-165 | a page adds exactly the system roles on it that were not found before, each once |
| `EnterpriseRoles.OrganizationRoleResources` | pkg/connector/enterprise_roles.go:127-137 | the organisation roles' resources, each once, in some map iteration order |
| `EnterpriseRoles.NewRoleResources` | pkg/connector/enterprise_roles.go:148-165 | the new roles' resources in order, and the found map extended by exactly those roles |
| `EnterpriseRoles.List` | pkg/connector/enterprise_roles.go:111-173 | one call is the specified step from token to resources and next token, for some map iteration order; it fails exactly when the step does |
| `EnterpriseRoles.ListCallFails` | pkg/connector/enterprise_roles.go:122-145 | a call fails exactly when its token cannot be decoded or the server has no answer for its cursor |
| `EnterpriseRoles.RoleGrants` | pkg/connector/enterprise_roles.go:207-255 | no grants for an organisation role, otherwise one grant per assignment in order with the next cursor |
| `EnterpriseRoles.GrantedInFull` | pkg/connector/enterprise_roles.go:244-251 | every grant on a system role in full: the role, the assigned user and the literal ID |
| `RoleListingRun.AnsweredCallResult` | pkg/connector/enterprise_roles.go:122-172 | an answered call issues the next page's token and emits that page's new roles, plus the organisation roles on the first page |
| `RoleListingRun.TokenInHand` | pkg/helpers.go:60-98 | every issued token has a non-empty cursor after the first page and holds exactly the system roles emitted so far |
| `RoleListingRun.FailedCall` | pkg/connector/enterprise_roles.go:140-144 | a call the server does not answer emits nothing and keeps the token |
| `RoleListingRun.RunFromIssuedToken` | pkg/connector/enterprise_roles.go:122-172 | invariant of every run from any issued token over any failures: token and emission are those of the position reached |
| `RoleListingRun.ExactlyOnce` | pkg/connector/enterprise_roles.go:122-172 | a run is finished exactly after as many answered calls as pages, and has then emitted each organisation role once, each system role on any page once, nothing else |
| `RoleListingRun.ResumeLosesNothing` | pkg/helpers.go:60-98 | a process that knows only the token emits the rest: both parts together equal an uninterrupted run |
| `RoleListingRun.RewindMissesNothing` | pkg/connector/enterprise_roles.go:146-164 | a restart from an older token repeats only roles first seen after it and misses none |
| `RoleListingRun.EmitsTableResources` | pkg/connector/enterprise_roles.go:157-162 | every emitted resource is the table's own resource for its role |
| `RoleListingRun.NeverTwice` | pkg/connector/enterprise_roles.go:122-172 | whatever the server answers at each call: each organisation role once from the first answered call on, each system role on a page that was served once, nothing else |
| `RoleListingRun.RoleTablesDisjoint` | pkg/connector/enterprise_roles.go:42-65 | no role is both a system role and an organisation role |
| `ScimPaging.ParsePaginationToken` | pkg/connector/group.go:66-87 | offset and limit of a token and page size, with the two defaults, or the parse error |
| `ScimPaging.StopRulesAgree` | pkg/connector/group.go:89-95 | the groups' and the users' rule give the same token exactly when the next offset does not wrap to the smallest integer |
| `ScimPaging.StopRulesDiffer` | pkg/connector/user.go:210-213 | at every offset whose next one is just past the largest integer, one rule goes on and the other stops |
| `ScimPaging.ListGroups` | pkg/connector/group.go:97-131 | one call returns the page's resources in order and the groups' next token, or an error exactly when parsing or fetching fails |
| `ScimPaging.ListUsers` | pkg/connector/user.go:180-215 | the same for users, with a fixed count of 100 and the users' stop rule |
| `ScimPaging.ListCallFails` | pkg/connector/group.go:106-116 | a call fails exactly when its token is no number or the server does not answer |
| `ScimPaging.ListedFields` | pkg/connector/user.go:41-76 | a group is listed by its ID and display name, a user by ID and display name, or user name when that is empty |
| `ScimRun.TokensFollowOffsets` | pkg/connector/group.go:66-95 | a run on decimal tokens is the run on the offsets they say, for every server, size and total, overflow included |
| `ScimRun.NextOffsetRight` | pkg/connector/group.go:89-95 | the next offset is the next unread position exactly when computing it does not overflow |
| `ScimRun.LastCall` | pkg/connector/group.go:106-130 | a call at a reached offset gets that page and leaves the run at the next offset, or done |
| `ScimRun.Termination` | pkg/connector/user.go:210-213 | with totals that change below a bound, an unfinished run's token says the exact next offset, which is at most the bound, and asking for the bound ends the run |
| `ScimRun.RunEnds` | pkg/connector/group.go:89-95 | with one total the run ends exactly when it has asked for all of it |
| `ScimRun.Coverage` | pkg/connector/group.go:106-130 | with filled pages the items got are the list up to what was asked for, and a finished run has the list, whatever limits were used |
| `ScimRun.CallCount` | pkg/connector/user.go:194-213 | a fixed-limit run ends exactly after max(1, ceil(total / limit)) answered calls |
| `ScimRun.GroupPage` | pkg/connector/group.go:66-128 | told a page size, a group call from an offset gets exactly that many of the groups there, and the token of the next offset if there is one |
| `ScimRun.GroupPageUnsized` | pkg/connector/group.go:68-77 | told no page size, a group call asks for 100 |
| `ScimRun.UserPage` | pkg/connector/user.go:185-213 | a user call asks for 100 whatever it is told |
| `ScimRun.GroupCallCount` | pkg/connector/group.go:89-95 | a group listing with one page size ends exactly when its answered calls, at least one, have room for all groups |
| `ScimRun.UserCallCount` | pkg/connector/user.go:194-213 | the same for users and 100 |
| `ScimRun.ShortPages` | pkg/connector/user.go:210-213 | with a page cap, exactly the positions whose place on their page is below the cap are got; complete if and only if the cap reaches the limit or the total |
| `ScimRun.KeptAll` | pkg/connector/group.go:89-95 | a cap below the limit loses something as soon as the list is longer than the cap, and nothing before |
| `ScimRun.OverflowServesTwice` | pkg/connector/group.go:89-95 | when the groups' next offset overflows, a run that has the whole list goes on and is served the first item again |
| `Membership.GrantUserGroup` | pkg/connector/user_group.go:167-213 | non-users and failed reads change nothing, a present user is reported as existing, otherwise the server gets the list with the user appended |
| `Membership.RevokeUserGroup` | pkg/connector/user_group.go:215-270 | an absent user is reported as revoked without a write, otherwise the server gets the list without the user |
| `Membership.UserGroup.UpdateUserGroupMembers` | pkg/connector/client/slack.go:184-211 | the server's list becomes what it reads from the comma-joined text, unless the update fails |
| `Membership.RemoveUserFromGroup` | pkg/connector/client/slack.go:588-635 | true with the user filtered out, false and no write for an absent user, or one of the two errors with the list unchanged; a server may refuse the `null` that is sent without the last member |
| `Membership.GrantIdpGroup` | pkg/connector/group.go:201-241 | refused in Gov environments and for non-users; otherwise one server-side add |
| `Membership.RevokeIdpGroup` | pkg/connector/group.go:243-290 | each outcome with its exact condition, the refused `null` included, and the list is filtered exactly when the outcome is done |
| `Membership.RemovedExact` | pkg/connector/user_group.go:248-256 | the removal loop drops the user entirely and keeps everybody else's multiplicity and order; it changes nothing exactly when the user was absent |
| `Membership.AddRemoveIdempotent` | pkg/connector/user_group.go:198-206 | grant and revoke are idempotent and leave everybody else alone, in order and multiplicity |
| `Membership.AddRemoveInverse` | pkg/connector/user_group.go:248-263 | grant then revoke restores the exact list, revoke then grant the membership |
| `Membership.WireRoundTrip` | pkg/connector/client/slack.go:202 | a list of non-empty comma-free IDs arrives as sent, except the empty list at a server that refuses it |
| `Membership.WireExact` | pkg/connector/client/slack.go:202 | exactly which lists of arbitrary IDs arrive as sent |
| `Concurrency.ReadThenWrite` | pkg/connector/user_group.go:192-206 | the two halves back to back make of the list what the whole operation makes of it, and do nothing at the read exactly when it short-circuits |
| `Concurrency.AtomicActs` | pkg/connector/client/slack.go:558-585 | an IDP add puts the user on the list at once, leaves everybody else and the operations in flight alone, and counts as one write |
| `Concurrency.LateWrite` | pkg/connector/client/slack.go:598-629 | a write, however late, replaces the whole list by what its operation makes of the list it read |
| `Concurrency.AbortedIsGone` | pkg/connector/client/slack.go:624-629 | an operation that failed between its halves changes nothing, then or later |
| `Concurrency.WritesAreCarriedOut` | pkg/connector/client/slack.go:558-629 | the writes of a run are its IDP adds and accepted writes in event order |
| `Concurrency.NextExplained` | pkg/connector/client/slack.go:598-629 | every step keeps the server's list equal to its history carried out in sequence |
| `Concurrency.Serialisable` | pkg/connector/user_group.go:192-263 | every run's list is what a subsequence of what the server carried out gives in turn, and all of it when every write is isolated |
| `Concurrency.SerialStep` | pkg/connector/client/slack.go:598-629 | a step keeps the membership equal to the fold of the writes exactly when it is no write that finds somebody else's membership changed since its read |
| `Concurrency.SerialExactly` | pkg/connector/user_group.go:192-263 | the membership is the fold of what the server carried out, after every event of a run, if and only if every accepted write finds everybody else's membership as its operation read it |
| `Concurrency.IsolatedMembership` | pkg/connector/user_group.go:242-263 | a run without other writes between the two halves of an operation meets that condition, so the final membership is the adds and removes folded in write order |
| `Concurrency.LostGrant` | pkg/connector/user_group.go:192-206 | two grants that both read first lose the user that is written first |
| `Concurrency.HarmlessOverlap` | pkg/connector/user_group.go:192-206 | two overlapping grants of one user are not isolated and yet add up |
| `WorkspaceRoles.RoleIds` | pkg/connector/roles.go:25-48 | role IDs are distinct, non-empty and colon-free |
| `WorkspaceRoles.RoleTable` | pkg/connector/roles.go:39-93 | the ID and name under which each of the eight roles is listed, literally |
| `WorkspaceRoles.RoleKeys` | pkg/connector/roles.go:108-113 | the table's keys, each once, in some order |
| `WorkspaceRoles.ListRoles` | pkg/connector/roles.go:95-118 | nothing without a parent, otherwise every role's resource under it once |
| `WorkspaceRoles.ParseErrors` | pkg/helpers.go:18-32 | an ID is refused exactly when it has fewer than one, or two, colons |
| `WorkspaceRoles.RoleIdRoundTrip` | pkg/helpers.go:18-32 | workspace and role come back out of entitlement and grant IDs exactly when the workspace ID has no colon |
| `WorkspaceRoles.SetWorkspaceRole` | pkg/connector/client/slack.go:443-473 | one call on the role's endpoint, or an error and no call for a role without one |
| `WorkspaceRoles.GrantRole` | pkg/connector/roles.go:179-224 | which call is made for an entitlement ID, and done exactly when it is made and succeeds |
| `WorkspaceRoles.RevokeRole` | pkg/connector/roles.go:226-288 | which call is made for a grant ID; done exactly when there is none or it succeeds, already revoked for errors that name `NotFound`, failed otherwise |
| `WorkspaceRoles.DispatchAgrees` | pkg/connector/roles.go:260-275 | over the whole table Grant reaches the API exactly for the roles Revoke does, on the right workspace, user and endpoint |
| `WorkspaceRoles.DispatchAgreesOnAnyId` | pkg/connector/client/path.go:50-60 | exactly which role parts Grant and Revoke make a call for, over all IDs; they agree exactly when the role part is not empty |
| `WorkspaceGrants.OwnerAndGuestGrants` | pkg/connector/workspace.go:199-238 | the flag tests up to the guest roles emit exactly the specified awards, in order |
| `WorkspaceGrants.AppendMemberGrants` | pkg/connector/workspace.go:240-262 | the invited, member and bot tests append exactly the specified awards |
| `WorkspaceGrants.AppendEnterpriseGrants` | pkg/connector/workspace.go:265-293 | the organisation tests and the unconditional membership append exactly the specified awards |
| `WorkspaceGrants.Grants` | pkg/connector/workspace.go:162-300 | one page of users emits exactly the specified awards, strangers none |
| `WorkspaceGrants.OrganizationRolesKnown` | pkg/connector/enterprise_roles.go:61-109 | each of the three organisation roles has a resource |
| `GrantLaws.PagingIsFlat` | pkg/connector/workspace.go:188-299 | grants page by page equal one pass over all users |
| `GrantLaws.SkipIsFilter` | pkg/connector/workspace.go:31-36 | with a switch set, what is emitted is what is emitted without it less the skipped resource type, in the same order |
| `GrantLaws.AwardedExactly` | pkg/connector/workspace.go:189-294 | every award is given exactly once for every non-stranger whose flags entitle to it |
| `GrantLaws.AwardsDistinct` | pkg/connector/workspace.go:189-294 | with distinct user IDs no award is given twice |
| `GrantLaws.MembershipsConserved` | pkg/connector/workspace.go:190-293 | memberships number exactly the non-strangers, whatever the switches |
| `GrantLaws.RolesExclusive` | pkg/connector/workspace.go:224-255 | nobody gets both guest roles, nor the member role with a guest, invited or bot role |
| `GrantLaws.AtMostTen` | pkg/connector/workspace.go:198-293 | nobody gets more than ten grants |
| `GrantLaws.GrantIdsDistinct` | pkg/connector/workspace.go:205-293 | within a workspace different awards have different grant IDs, whatever the IDs contain |
| `GrantLaws.OwnerFlagsDecide` | pkg/connector/workspace.go:199-222 | the grants on primary owner, owner and admin appear, by literal ID, exactly for non-strangers with that flag |
| `GrantLaws.GuestFlagsDecide` | pkg/connector/workspace.go:224-238 | the two guest grants appear exactly for the restricted, by the ultra-restricted flag |
| `GrantLaws.MemberFlagsDecide` | pkg/connector/workspace.go:240-262 | the invited, member and bot grants appear exactly for the flags the source tests |
| `GrantLaws.OrganizationFlagsDecide` | pkg/connector/workspace.go:265-293 | the organisation grants appear exactly for their enterprise flags, the membership for every non-stranger |
| `GrantLaws.EveryGrantIsHeld` | pkg/connector/workspace.go:189-294 | the principal of every grant is a listed non-stranger, and the grant's ID ends with that user |
| `WorkspaceNames.SetWorkspaceNames` | pkg/connector/client/slack.go:86-92 | the store is extended by the page's names, the last one winning |
| `WorkspaceNames.GetWorkspaceNames` | pkg/connector/client/slack.go:95-120 | found and missing split the non-empty IDs, found has the stored names, missing keeps order |
| `WorkspaceNames.OnlyExact` | pkg/connector/client/slack.go:112-118 | the missing IDs are there as often as they were asked for, and no others |
| `WorkspaceNames.OnlyKeepsOrder` | pkg/connector/client/slack.go:112-118 | in the order in which they were asked for |
| `WorkspaceNames.ListWorkspaces` | pkg/connector/workspace.go:87-134 | a page's names are stored and its resources returned in order; a failed fetch stores nothing |
| `WorkspaceNames.WorkspaceFields` | pkg/connector/workspace.go:62-85 | a workspace is listed by its ID and name |
| `WorkspaceNames.RoleEntitlements` | pkg/connector/roles.go:120-160 | succeeds exactly for a non-empty cached workspace, with the cached name in the display name |
| `WorkspaceNames.NamesOfExact` | pkg/connector/client/slack.go:87-90 | a name is known exactly for listed IDs and is the last one listed |
| `WorkspaceNames.CacheAgreesWithListing` | pkg/connector/workspace.go:104-118 | after any run of listing calls the cache has exactly the listed IDs, each with its last name |
| `WorkspaceNames.EntitlementsAfterListing` | pkg/connector/roles.go:129-136 | after any run of listing calls, a role's entitlements succeed exactly for the listed workspaces with a non-empty ID, under the last name listed |
| `SlackErrors.ContainsAny` | pkg/connector/client/helpers.go:110-117 | true exactly when some literal occurs |
| `SlackErrors.Priority` | pkg/connector/client/helpers.go:119-172 | the earliest group with a literal in the text |
| `SlackErrors.MapSlackErrorToGRPCCode` | pkg/connector/client/helpers.go:119-172 | the cascade is first match in the ordered table on the lower-cased text |
| `SlackErrors.ClassifiedAs` | pkg/connector/client/helpers.go:119-172 | over all texts and literally: which literals give which code, in which order, and `Unknown` when none occurs |
| `SlackErrors.ContextRaisesPriority` | pkg/connector/client/helpers.go:123-171 | surrounding text can only raise the priority |
| `SlackErrors.CaseBlind` | pkg/connector/client/helpers.go:121 | texts that differ in nothing but letter case get the same code |
| `SlackErrorTable.Priorities` | pkg/connector/client/helpers.go:123-171 | a text gets past a group exactly when no literal of that group or an earlier one is in it |
| `SlackErrorTable.NoLiteralShadowed` | pkg/connector/client/helpers.go:123-169 | no literal of the table contains a literal of an earlier group: each has its own group's priority |
| `SlackErrorTable.LiteralCodes` | pkg/connector/client/helpers.go:120-169 | every listed literal is classified with the code of the group that lists it, the lower-casing included |
| `SlackErrors.GoneInContext` | pkg/connector/client/helpers.go:123-138 | a text around a gone-user literal stays `NotFound` exactly when no authentication, permission or rate-limit literal is in it |
| `Provisioning.GrantWorkspace` | pkg/connector/workspace.go:302-339 | one add call; done exactly when it succeeds, existing when the error names `AlreadyExists`, failed otherwise |
| `Provisioning.RevokeWorkspace` | pkg/connector/workspace.go:341-381 | one remove call; done exactly when it succeeds, already revoked when the error names `NotFound`, failed otherwise |
| `Provisioning.TextNamesNotFound` | pkg/connector/workspace.go:370-374 | the text of a wrapped error names `NotFound` exactly when its code is that or the Slack error spells it |
| `Provisioning.TextNamesAlreadyExists` | pkg/connector/workspace.go:328-333 | the same for `AlreadyExists` |
| `Provisioning.LowerCaseTextNamesCode` | pkg/connector/client/helpers.go:229-241 | for lower-case Slack errors the text tests agree with the code in both directions |
| `Provisioning.RevokeOfGoneUser` | pkg/connector/workspace.go:370-374 | over all Slack errors, a revoke ends as already revoked exactly when the error says the user is gone and has no authentication, permission or rate-limit literal, or spells `NotFound`; after any other it fails |
| `Provisioning.GrantToMember` | pkg/connector/workspace.go:328-333 | the same for a grant, an existing member and `AlreadyExists` |
| `Provisioning.AlreadyDoneSucceeds` | pkg/connector/workspace.go:328-333 | with Slack's own three errors, revoking from a gone user ends as already revoked and adding a member as existing |
| `Sync.NoDanglingGrant` | pkg/connector/workspace.go:199-293 | every grant is on a listed workspace role, a listed organisation role, or the workspace itself, by its kind |
| `Sync.OrganizationRolesListed` | pkg/connector/enterprise_roles.go:127-137 | a finished role listing has every organisation role's resource |
| `Sync.EnterpriseGrantsDisjoint` | pkg/connector/enterprise_roles.go:223-227 | no organisation-role grant that comes with a workspace is on the role of any grant that the enterprise-role syncer emits |
| `Sync.OrganizationGrantsRepeat` | pkg/connector/workspace.go:265-289 | an organisation-role grant is emitted once for every workspace that lists its holder |

## Left out

- HTTP requests, tokens, URLs, response decoding and logging: an API call is a step on abstract server state that may fail.
- JSON syntax of the role page token: the encoder and decoder are any pair that round-trips, which is what `RoundTrips` says.
- `pagination.Bag`: workspace and grant listings take and return cursors directly.
- Which roles a role listing misses when its pages change between calls: that none is emitted twice, and that each role served is emitted, holds for any answers.
- A server update that takes effect although the client sees an error: a failed update changes nothing in the model.
- Grants of user groups and IDP groups in `Sync.NoDanglingGrant`: they are on the resource they are asked for.
- Session-store failures and key restrictions: the store is a map.
- `strings.ToLower` outside ASCII is modelled only where it can produce an ASCII letter.
- `WrapError` and `httpStatusToGRPCCode`: not on the path from a Slack response to provisioning.
- Rate-limit annotations, grant annotations of Gov environments, user profiles and email options.
- What Slack does to user flags on `setAdmin`, `setOwner` and `setRegular`: not visible in the source.
- Configuration, client construction, account creation, enterprise-role assignment and the action handlers: single calls without state of their own.
