/** Whole runs of `enterpriseRoleType.List`: any number of failed calls, each retried with the token
    that was in hand, and restarts from any token that was ever issued. */
module RoleListingRun {
  import opened Resources
  import opened EnterpriseRoles

  /** One call: the server as the call finds it, and the map iteration order the call uses. */
  datatype Attempt = Attempt(server: Server, order: seq<string>)

  /** The token the next call will present (`None` once the run is over) and what was emitted. */
  datatype Progress = Progress(token: Option<string>, emitted: seq<Resource>)

  const START := Progress(Some(""), [])

  ghost predicate Orderly(t: RoleTables, attempts: seq<Attempt>) {
    forall a :: a in attempts ==> Enumerates(a.order, t.organization.Keys)
  }

  /** Every call finds the same pages, though not every call is answered. */
  ghost predicate On(pages: map<string, Page>, attempts: seq<Attempt>) {
    forall a :: a in attempts ==> a.server.pages == pages
  }

  /** A failed call changes nothing; an empty next token ends the run. */
  ghost function Call(t: RoleTables, json: Json, p: Progress, a: Attempt): Progress
    requires Enumerates(a.order, t.organization.Keys)
  {
    if p.token.None? then p
    else
      match ListCall(t, json, a.server, p.token.value, a.order)
      case Err(_) => p
      case Ok(page) =>
        Progress(if page.nextToken == "" then None else Some(page.nextToken), p.emitted + page.resources)
  }

  ghost function Run(t: RoleTables, json: Json, p: Progress, attempts: seq<Attempt>): Progress
    requires Orderly(t, attempts)
    decreases attempts
  {
    if attempts == [] then p
    else Run(t, json, Call(t, json, p, attempts[0]), attempts[1..])
  }

  /** How many of the calls the server answered. */
  ghost function Answered(attempts: seq<Attempt>): nat {
    if attempts == [] then 0 else (if attempts[0].server.up then 1 else 0) + Answered(attempts[1..])
  }

  // ----- Page chains

  ghost function CursorAt(chain: seq<Page>, k: nat): string
    requires k <= |chain|
  {
    if k == 0 then "" else chain[k - 1].nextCursor
  }

  /** `chain` is what following cursors from the empty one yields, up to the first empty cursor. */
  ghost predicate IsChain(pages: map<string, Page>, chain: seq<Page>) {
    && chain != []
    && (forall k :: 0 <= k < |chain| ==> CursorAt(chain, k) in pages && pages[CursorAt(chain, k)] == chain[k])
    && (forall k :: 1 <= k <= |chain| ==> (CursorAt(chain, k) == "" <==> k == |chain|))
  }

  /** The system roles that occur on the first `k` pages. */
  ghost function Seen(t: RoleTables, chain: seq<Page>, k: nat): set<string>
    requires k <= |chain|
  {
    if k == 0 then {} else Seen(t, chain, k - 1) + RolesIn(t, chain[k - 1].assignments)
  }

  lemma {:induction false} SeenExact(t: RoleTables, chain: seq<Page>, k: nat, id: string)
    requires k <= |chain|
    ensures id in Seen(t, chain, k)
            <==> id in t.system && exists i, a :: 0 <= i < k && a in chain[i].assignments && a.roleID == id
  {
    if k > 0 {
      SeenExact(t, chain, k - 1, id);
      if id in RolesIn(t, chain[k - 1].assignments) {
        var a :| a in chain[k - 1].assignments && a.roleID == id;
      }
    }
  }

  /** How often a run owes a role once the server has answered `k` calls. */
  ghost function Owed(t: RoleTables, chain: seq<Page>, k: nat, id: string): nat
    requires k <= |chain|
  {
    (if k > 0 && id in t.organization then 1 else 0) + (if id in Seen(t, chain, k) then 1 else 0)
  }

  /** How often a role was emitted. */
  ghost function Count(rs: seq<Resource>, id: string): nat {
    if rs == [] then 0 else Count(rs[..|rs| - 1], id) + if rs[|rs| - 1].id.resource == id then 1 else 0
  }

  lemma {:induction false} CountAppend(a: seq<Resource>, b: seq<Resource>, id: string)
    ensures Count(a + b, id) == Count(a, id) + Count(b, id)
  {
    if b == [] {
      assert a + b == a;
    } else {
      assert (a + b)[..|a + b| - 1] == a + b[..|b| - 1];
      CountAppend(a, b[..|b| - 1], id);
    }
  }

  lemma {:induction false} CountTableResources(t: RoleTables, ids: seq<string>, id: string)
    ensures Count(TableResources(t, ids), id) == multiset(ids)[id]
  {
    if ids != [] {
      var front, last := ids[..|ids| - 1], ids[|ids| - 1];
      CountTableResources(t, front, id);
      assert ids == front + [last];
      assert TableResources(t, ids)[..|ids| - 1] == TableResources(t, front);
    }
  }

  ghost function AllTrue(s: set<string>): map<string, bool> {
    map id | id in s :: true
  }

  /** The token that is issued after `k` answered calls: a non-empty cursor together with exactly the
      system roles emitted so far. */
  ghost function TokenAt(t: RoleTables, json: Json, chain: seq<Page>, k: nat): Option<string>
    requires k <= |chain|
  {
    if k == 0 then Some("")
    else if k == |chain| then None
    else Some(json.encode(TokenState(CursorAt(chain, k), Some(AllTrue(Seen(t, chain, k))))))
  }

  /** What an answered call does at position `k`. */
  lemma AnsweredCallResult(t: RoleTables, json: Json, pages: map<string, Page>, chain: seq<Page>, p: Progress, a: Attempt,
                           k: nat)
    requires json.RoundTrips() && IsChain(pages, chain) && Enumerates(a.order, t.organization.Keys)
    requires k < |chain| && p.token == TokenAt(t, json, chain, k) && a.server == Server(pages, true)
    ensures var q := Call(t, json, p, a);
            var newIds := NewRoles(t, chain[k].assignments, Seen(t, chain, k));
            && q.token == TokenAt(t, json, chain, k + 1)
            && q.emitted == p.emitted + TableResources(t, (if k == 0 then a.order else []) + newIds)
  {
    TokenInHand(t, json, chain, p.token.value, k);
    assert pages[CursorAt(chain, k)] == chain[k];
    assert AllTrue(Seen(t, chain, k)).Keys == Seen(t, chain, k);
    RecordedAll(t, chain, k);
    assert CursorAt(chain, k + 1) == chain[k].nextCursor;
    var next := TokenState(chain[k].nextCursor, Some(AllTrue(Seen(t, chain, k + 1))));
    assert json.decode(json.encode(next)) == Some(next);
  }

  /** An issued token parses back to the cursor and the roles it was printed from. */
  lemma TokenInHand(t: RoleTables, json: Json, chain: seq<Page>, token: string, k: nat)
    requires json.RoundTrips() && k < |chain| && Some(token) == TokenAt(t, json, chain, k)
    requires forall i :: 1 <= i <= |chain| ==> (CursorAt(chain, i) == "" <==> i == |chain|)
    ensures ParseToken(json, token) == Ok((CursorAt(chain, k), AllTrue(Seen(t, chain, k))))
    ensures CursorAt(chain, k) == "" <==> k == 0
  {
  }

  lemma PageDelivers(t: RoleTables, chain: seq<Page>, before: seq<Resource>, k: nat, order: seq<string>, id: string)
    requires k < |chain| && Enumerates(order, t.organization.Keys)
    ensures var newIds := NewRoles(t, chain[k].assignments, Seen(t, chain, k));
            var after := before + TableResources(t, (if k == 0 then order else []) + newIds);
            Count(after, id) == Count(before, id) + Owed(t, chain, k + 1, id) - Owed(t, chain, k, id)
  {
    var newIds := NewRoles(t, chain[k].assignments, Seen(t, chain, k));
    var orgs := if k == 0 then order else [];
    NewRolesExact(t, chain[k].assignments, Seen(t, chain, k), id);
    TableResourcesAppend(t, orgs, newIds);
    CountAppend(before, TableResources(t, orgs + newIds), id);
    CountAppend(TableResources(t, orgs), TableResources(t, newIds), id);
    CountTableResources(t, orgs, id);
    CountTableResources(t, newIds, id);
    assert multiset(order)[id] == if id in t.organization then 1 else 0;
  }

  /** Recording a page's new roles leaves exactly the roles seen so far. */
  lemma RecordedAll(t: RoleTables, chain: seq<Page>, k: nat)
    requires k < |chain|
    ensures Recorded(AllTrue(Seen(t, chain, k)), NewRoles(t, chain[k].assignments, Seen(t, chain, k)))
            == AllTrue(Seen(t, chain, k + 1))
  {
    var newIds := NewRoles(t, chain[k].assignments, Seen(t, chain, k));
    NewRolesMembers(t, chain[k].assignments, Seen(t, chain, k));
  }

  /** A call the server does not answer emits nothing and keeps the token. */
  lemma FailedCall(t: RoleTables, json: Json, p: Progress, a: Attempt)
    requires Enumerates(a.order, t.organization.Keys) && !a.server.up
    ensures Call(t, json, p, a) == p
  {
  }

  /** Any call, answered or not, before or after the end of the run. */
  lemma StepOn(t: RoleTables, json: Json, pages: map<string, Page>, chain: seq<Page>, p: Progress, a: Attempt,
               k: nat, id: string)
    requires json.RoundTrips() && IsChain(pages, chain) && Enumerates(a.order, t.organization.Keys)
    requires k <= |chain| && p.token == TokenAt(t, json, chain, k) && a.server.pages == pages
    ensures var q, k' := Call(t, json, p, a), if a.server.up && k < |chain| then k + 1 else k;
            && q.token == TokenAt(t, json, chain, k')
            && Count(q.emitted, id) == Count(p.emitted, id) + Owed(t, chain, k', id) - Owed(t, chain, k, id)
  {
    if !a.server.up {
      FailedCall(t, json, p, a);
    } else if k < |chain| {
      AnsweredCallResult(t, json, pages, chain, p, a, k);
      PageDelivers(t, chain, p.emitted, k, a.order, id);
    }
  }

  // ----- Runs

  /** The position a run starting at position `k` reaches. */
  ghost function Reached(chain: seq<Page>, k: nat, attempts: seq<Attempt>): (k': nat)
    requires k <= |chain|
    ensures k <= k' <= |chain|
  {
    if k + Answered(attempts) < |chain| then k + Answered(attempts) else |chain|
  }

  /** The invariant of every run, from any issued token, over any pattern of failures: the token is the
      one for the position reached, and what was emitted on the way is exactly what the pages in
      between owe. */
  lemma {:induction false} RunFromIssuedToken(t: RoleTables, json: Json, pages: map<string, Page>, chain: seq<Page>,
                                              p: Progress, k: nat, attempts: seq<Attempt>, id: string)
    requires json.RoundTrips() && IsChain(pages, chain) && Orderly(t, attempts) && On(pages, attempts)
    requires k <= |chain| && p.token == TokenAt(t, json, chain, k)
    ensures var q, k' := Run(t, json, p, attempts), Reached(chain, k, attempts);
            && q.token == TokenAt(t, json, chain, k')
            && Count(q.emitted, id) == Count(p.emitted, id) + Owed(t, chain, k', id) - Owed(t, chain, k, id)
    decreases attempts
  {
    if attempts != [] {
      var a, rest := attempts[0], attempts[1..];
      var q := Call(t, json, p, a);
      var k' := if a.server.up && k < |chain| then k + 1 else k;
      assert a in attempts && forall b :: b in rest ==> b in attempts;
      ReachedStep(chain, k, attempts);
      StepOn(t, json, pages, chain, p, a, k, id);
      RunFromIssuedToken(t, json, pages, chain, q, k', rest, id);
    }
  }

  lemma ReachedStep(chain: seq<Page>, k: nat, attempts: seq<Attempt>)
    requires k <= |chain| && attempts != []
    ensures Reached(chain, if attempts[0].server.up && k < |chain| then k + 1 else k, attempts[1..])
            == Reached(chain, k, attempts)
  {
  }

  ghost predicate FromTables(t: RoleTables, rs: seq<Resource>) {
    forall r :: r in rs ==> t.Has(r.id.resource) && r == TableResource(t, r.id.resource)
  }

  lemma TableResourcesFromTables(t: RoleTables, ids: seq<string>)
    requires forall id :: id in ids ==> t.Has(id)
    ensures FromTables(t, TableResources(t, ids))
  {
  }

  lemma CallEmitsFromTables(t: RoleTables, json: Json, server: Server, token: string, order: seq<string>)
    requires Enumerates(order, t.organization.Keys)
    ensures var r := ListCall(t, json, server, token, order); r.Ok? ==> FromTables(t, r.value.resources)
  {
    if ListCall(t, json, server, token, order).Ok? {
      var (cursor, found) := ParseToken(json, token).value;
      var newIds := NewRoles(t, server.GetRoleAssignments(cursor).value.assignments, found.Keys);
      var ids := (if cursor == "" then order else []) + newIds;
      NewRolesMembers(t, server.GetRoleAssignments(cursor).value.assignments, found.Keys);
      forall id | id in order ensures id in t.organization {
        assert id in multiset(order);
      }
      TableResourcesFromTables(t, ids);
    }
  }

  /** Every emitted resource is the table's own resource for its role. */
  lemma {:induction false} EmitsTableResources(t: RoleTables, json: Json, p: Progress,
                                               attempts: seq<Attempt>)
    requires Orderly(t, attempts) && FromTables(t, p.emitted)
    ensures FromTables(t, Run(t, json, p, attempts).emitted)
    decreases attempts
  {
    if attempts != [] {
      var a := attempts[0];
      if p.token.Some? {
        CallEmitsFromTables(t, json, a.server, p.token.value, a.order);
      }
      EmitsTableResources(t, json, Call(t, json, p, a), attempts[1..]);
    }
  }

  /** Exactly once: a run is over exactly when the server has answered as many calls as there are
      pages, and then it has emitted every organisation role once, every known system role that occurs
      on some page once, and nothing else. */
  lemma ExactlyOnce(t: RoleTables, json: Json, pages: map<string, Page>, chain: seq<Page>, attempts: seq<Attempt>, id: string)
    requires json.RoundTrips() && IsChain(pages, chain) && Orderly(t, attempts) && On(pages, attempts)
    requires t.system.Keys !! t.organization.Keys
    ensures var p := Run(t, json, START, attempts);
            && (p.token == None <==> Answered(attempts) >= |chain|)
            && (p.token == None ==>
                  Count(p.emitted, id) ==
                  if id in t.organization then 1
                  else if id in t.system && exists i, a :: 0 <= i < |chain| && a in chain[i].assignments && a.roleID == id
                  then 1
                  else 0)
  {
    RunFromIssuedToken(t, json, pages, chain, START, 0, attempts, id);
    SeenExact(t, chain, |chain|, id);
  }

  /** Resuming: a process that knows only the token left by an earlier one emits the rest, so that
      together they have emitted what an uninterrupted run emits. */
  lemma ResumeLosesNothing(t: RoleTables, json: Json, pages: map<string, Page>, chain: seq<Page>,
                           first: seq<Attempt>, second: seq<Attempt>, whole: seq<Attempt>, id: string)
    requires json.RoundTrips() && IsChain(pages, chain)
    requires Orderly(t, first) && Orderly(t, second) && Orderly(t, whole)
    requires On(pages, first) && On(pages, second) && On(pages, whole)
    requires Answered(first) + Answered(second) >= |chain| && Answered(whole) >= |chain|
    ensures var p := Run(t, json, START, first);
            var q := Run(t, json, Progress(p.token, []), second);
            && q.token == None
            && Count(p.emitted + q.emitted, id) == Count(Run(t, json, START, whole).emitted, id)
  {
    var p := Run(t, json, START, first);
    var q := Run(t, json, Progress(p.token, []), second);
    RunFromIssuedToken(t, json, pages, chain, START, 0, first, id);
    RunFromIssuedToken(t, json, pages, chain, Progress(p.token, []), Reached(chain, 0, first), second, id);
    RunFromIssuedToken(t, json, pages, chain, START, 0, whole, id);
    CountAppend(p.emitted, q.emitted, id);
  }

  /** Rewinding: a restart from a token that was issued earlier than the last one repeats only roles
      first seen after that token, and still misses none. */
  lemma RewindMissesNothing(t: RoleTables, json: Json, pages: map<string, Page>, chain: seq<Page>,
                            j: nat, again: seq<Attempt>, id: string)
    requires json.RoundTrips() && IsChain(pages, chain) && Orderly(t, again) && On(pages, again)
    requires 0 < j <= |chain| && j + Answered(again) >= |chain|
    ensures var q := Run(t, json, Progress(TokenAt(t, json, chain, j), []), again);
            && q.token == None
            && Count(q.emitted, id) == if id in Seen(t, chain, |chain|) && id !in Seen(t, chain, j) then 1 else 0
  {
    RunFromIssuedToken(t, json, pages, chain, Progress(TokenAt(t, json, chain, j), []), j, again, id);
    SeenGrows(t, chain, j, |chain|);
  }

  lemma {:induction false} SeenGrows(t: RoleTables, chain: seq<Page>, j: nat, k: nat)
    requires j <= k <= |chain|
    ensures Seen(t, chain, j) <= Seen(t, chain, k)
  {
    if j < k {
      SeenGrows(t, chain, j, k - 1);
    }
  }

  // ----- Listings that change while a run goes on

  /** The system roles on the page that a call is served, if any. */
  ghost function ServedRoles(t: RoleTables, json: Json, p: Progress, a: Attempt): set<string> {
    if p.token.None? || ParseToken(json, p.token.value).Err? then {}
    else
      match a.server.GetRoleAssignments(ParseToken(json, p.token.value).value.0)
      case Err(_) => {}
      case Ok(page) => RolesIn(t, page.assignments)
  }

  /** The system roles on the pages that a run is served. */
  ghost function Served(t: RoleTables, json: Json, p: Progress, attempts: seq<Attempt>): set<string>
    requires Orderly(t, attempts)
    decreases attempts
  {
    if attempts == [] then {}
    else ServedRoles(t, json, p, attempts[0]) + Served(t, json, Call(t, json, p, attempts[0]), attempts[1..])
  }

  /** The token in hand, unless the run is over, says exactly which system roles were emitted. */
  ghost predicate Knows(json: Json, token: Option<string>, emitted: set<string>) {
    || token == None
    || (token == Some("") && emitted == {})
    || exists cursor :: KnowsAt(json, token, emitted, cursor)
  }

  ghost predicate KnowsAt(json: Json, token: Option<string>, emitted: set<string>, cursor: string) {
    cursor != "" && token == Some(json.encode(TokenState(cursor, Some(AllTrue(emitted)))))
  }

  lemma KnownToken(json: Json, token: string, emitted: set<string>)
    requires json.RoundTrips() && Knows(json, Some(token), emitted)
    ensures ParseToken(json, token).Ok?
    ensures var (cursor, found) := ParseToken(json, token).value;
            found == AllTrue(emitted) && (cursor == "" <==> token == "")
  {
  }

  lemma RecordedNew(t: RoleTables, assignments: seq<RoleAssignment>, emitted: set<string>)
    ensures Recorded(AllTrue(emitted), NewRoles(t, assignments, emitted)) == AllTrue(emitted + RolesIn(t, assignments))
  {
    NewRolesMembers(t, assignments, emitted);
  }

  /** What a call that is served a page emits, and the token it issues, whichever page that is. */
  lemma ServedPage(t: RoleTables, json: Json, p: Progress, a: Attempt, emitted: set<string>, page: Page)
    requires json.RoundTrips() && Enumerates(a.order, t.organization.Keys)
    requires p.token.Some? && Knows(json, p.token, emitted)
    requires a.server.GetRoleAssignments(ParseToken(json, p.token.value).value.0) == Ok(page)
    ensures var newIds := NewRoles(t, page.assignments, emitted);
            var ids := (if p.token == Some("") then a.order else []) + newIds;
            var next := PrintToken(json, page.nextCursor, Some(AllTrue(emitted + RolesIn(t, page.assignments))));
            Call(t, json, p, a) == Progress(if next == "" then None else Some(next), p.emitted + TableResources(t, ids))
  {
    KnownToken(json, p.token.value, emitted);
    assert AllTrue(emitted).Keys == emitted;
    RecordedNew(t, page.assignments, emitted);
  }

  lemma CountServed(t: RoleTables, before: seq<Resource>, orgs: seq<string>, page: Page, emitted: set<string>, id: string)
    ensures Count(before + TableResources(t, orgs + NewRoles(t, page.assignments, emitted)), id)
            == Count(before, id) + multiset(orgs)[id]
               + if id in RolesIn(t, page.assignments) && id !in emitted then 1 else 0
  {
    var newIds := NewRoles(t, page.assignments, emitted);
    NewRolesExact(t, page.assignments, emitted, id);
    CountAppend(before, TableResources(t, orgs + newIds), id);
    CountTableResources(t, orgs + newIds, id);
    assert multiset(orgs + newIds) == multiset(orgs) + multiset(newIds);
  }

  lemma ServedCall(t: RoleTables, json: Json, p: Progress, a: Attempt, emitted: set<string>, id: string)
    requires json.RoundTrips() && Enumerates(a.order, t.organization.Keys)
    requires p.token.Some? && Knows(json, p.token, emitted)
    requires ListCall(t, json, a.server, p.token.value, a.order).Ok?
    ensures var q, served := Call(t, json, p, a), ServedRoles(t, json, p, a);
            && q.token != Some("") && Knows(json, q.token, emitted + served)
            && Count(q.emitted, id) == Count(p.emitted, id)
                                       + (if id in served && id !in emitted then 1 else 0)
                                       + (if p.token == Some("") && id in t.organization then 1 else 0)
  {
    KnownToken(json, p.token.value, emitted);
    var page := a.server.GetRoleAssignments(ParseToken(json, p.token.value).value.0).value;
    ServedPage(t, json, p, a, emitted, page);
    var orgs := if p.token == Some("") then a.order else [];
    CountServed(t, p.emitted, orgs, page, emitted, id);
    if page.nextCursor != "" {
      assert KnowsAt(json, Call(t, json, p, a).token, emitted + RolesIn(t, page.assignments), page.nextCursor);
    }
  }

  lemma {:induction false} ServedRun(t: RoleTables, json: Json, p: Progress, attempts: seq<Attempt>,
                                     emitted: set<string>, id: string)
    requires json.RoundTrips() && Orderly(t, attempts) && Knows(json, p.token, emitted)
    ensures var q := Run(t, json, p, attempts);
            && (p.token != Some("") ==> q.token != Some(""))
            && Count(q.emitted, id) == Count(p.emitted, id)
                                       + (if id in Served(t, json, p, attempts) && id !in emitted then 1 else 0)
                                       + (if p.token == Some("") != q.token && id in t.organization then 1 else 0)
    decreases attempts
  {
    if attempts != [] {
      var a, rest := attempts[0], attempts[1..];
      var q, served := Call(t, json, p, a), ServedRoles(t, json, p, a);
      if p.token.Some? && ListCall(t, json, a.server, p.token.value, a.order).Ok? {
        ServedCall(t, json, p, a, emitted, id);
        ServedRun(t, json, q, rest, emitted + served, id);
      } else {
        NothingServed(t, json, p, a, emitted);
        ServedRun(t, json, p, rest, emitted, id);
      }
    }
  }

  lemma NothingServed(t: RoleTables, json: Json, p: Progress, a: Attempt, emitted: set<string>)
    requires json.RoundTrips() && Enumerates(a.order, t.organization.Keys) && Knows(json, p.token, emitted)
    requires p.token.None? || ListCall(t, json, a.server, p.token.value, a.order).Err?
    ensures Call(t, json, p, a) == p && ServedRoles(t, json, p, a) == {}
  {
  }

  /** Whatever the server answers at each call, even when its pages change or its cursors go in circles, no
      role is emitted twice: a run emits each organisation role once, from its first answered call on,
      each system role on some page it was served once, and nothing else. */
  lemma NeverTwice(t: RoleTables, json: Json, attempts: seq<Attempt>, id: string)
    requires json.RoundTrips() && Orderly(t, attempts)
    requires t.system.Keys !! t.organization.Keys
    ensures var p := Run(t, json, START, attempts);
            Count(p.emitted, id) == if id in t.organization then (if p.token == Some("") then 0 else 1)
                                    else if id in Served(t, json, START, attempts) then 1
                                    else 0
  {
    ServedRun(t, json, START, attempts, {}, id);
    ServedInSystem(t, json, START, attempts);
  }

  lemma {:induction false} ServedInSystem(t: RoleTables, json: Json, p: Progress, attempts: seq<Attempt>)
    requires Orderly(t, attempts)
    ensures Served(t, json, p, attempts) <= t.system.Keys
    decreases attempts
  {
    if attempts != [] {
      ServedInSystem(t, json, Call(t, json, p, attempts[0]), attempts[1..]);
    }
  }

  // ----- The connector's own tables

  lemma RoleTablesDisjoint()
    ensures ROLE_TABLES.system.Keys !! ROLE_TABLES.organization.Keys
  {
  }
}
