/** Whole runs of the SCIM listings: coverage, length, termination and what short pages lose. */
module ScimRun {
  import opened Resources
  import opened Decimal
  import opened ScimPaging

  /** One listing call: the state of the server when it is made and the page size asked for. */
  datatype Call<T> = Call(server: Server<T>, size: int)

  datatype Progress<T> = Progress(token: Option<string>, got: seq<T>)

  ghost function Start<T>(): Progress<T> {
    Progress(Some(""), [])
  }

  ghost function Step<T>(rule: Rule, p: Progress<T>, c: Call<T>): Progress<T> {
    if p.token.None? then p
    else
      match ListCall(rule, c.server, p.token.value, c.size)
      case Err(_) => p
      case Ok(page) =>
        Progress(if page.nextToken == "" then None else Some(page.nextToken), p.got + page.items)
  }

  /** The run after its first `n` calls. */
  ghost function Run<T>(rule: Rule, calls: seq<Call<T>>, n: nat): Progress<T>
    requires n <= |calls|
  {
    if n == 0 then Start() else Step(rule, Run(rule, calls, n - 1), calls[n - 1])
  }

  /** How many of the first `n` calls the server answered. */
  ghost function Answered<T>(calls: seq<Call<T>>, n: nat): nat
    requires n <= |calls|
  {
    if n == 0 then 0 else Answered(calls, n - 1) + if calls[n - 1].server.up then 1 else 0
  }

  /** The sum of the limits of the answered calls among the first `n`. */
  ghost function Asked<T>(rule: Rule, calls: seq<Call<T>>, n: nat): (asked: nat)
    requires n <= |calls|
    ensures asked >= Answered(calls, n) && (asked == 0 <==> Answered(calls, n) == 0)
  {
    if n == 0 then 0
    else Asked(rule, calls, n - 1) + if calls[n - 1].server.up then LimitOf(rule, calls[n - 1].size) else 0
  }

  // ----- The same run on offsets

  /** The offset the next call starts from (`None` once the run is over) and the items got so far. */
  datatype Offsets<T> = Offsets(next: Option<int>, got: seq<T>)

  ghost function Min(a: nat, b: nat): nat {
    if a < b then a else b
  }

  /** Up to `count` items from the 0-based position `from`. */
  ghost function Slice<T>(items: seq<T>, from: nat, count: nat): seq<T> {
    items[Min(from, |items|)..Min(from + count, |items|)]
  }

  /** Both stop rules on the offset itself. */
  ghost function NextOffset(rule: Rule, offset: int, limit: int, total: int): Option<int> {
    var next := Wrap(offset + limit);
    match rule
    case Groups => if next > total then None else Some(next)
    case Users => if total > Wrap(next - 1) then Some(next) else None
  }

  ghost function OffsetStep<T>(rule: Rule, p: Offsets<T>, c: Call<T>): Offsets<T> {
    if p.next.None? || !c.server.up then p
    else
      var limit := LimitOf(rule, c.size);
      var from := if p.next.value < 1 then 0 else p.next.value - 1;
      Offsets(NextOffset(rule, p.next.value, limit, |c.server.items|),
              p.got + Slice(c.server.items, from, Min(limit, c.server.cap)))
  }

  ghost function OffsetRun<T>(rule: Rule, calls: seq<Call<T>>, n: nat): Offsets<T>
    requires n <= |calls|
  {
    if n == 0 then Offsets(Some(STARTING_OFFSET), [])
    else OffsetStep(rule, OffsetRun(rule, calls, n - 1), calls[n - 1])
  }

  /** The token says the offset: the empty token is offset 1, any other is the offset in decimal. */
  ghost predicate Says(token: Option<string>, next: Option<int>) {
    match next
    case None => token == None
    case Some(offset) => IsInt(offset) && (token == Some(Itoa(offset)) || (token == Some("") && offset == STARTING_OFFSET))
  }

  lemma FetchIsSlice<T>(server: Server<T>, offset: int, limit: nat)
    requires server.up
    ensures server.Fetch(offset, limit) ==
            Ok(Reply(Slice(server.items, if offset < 1 then 0 else offset - 1, Min(limit, server.cap)), |server.items|))
  {
  }

  lemma TokenOfOffset(rule: Rule, offset: int, limit: int, total: int)
    ensures NextToken(rule, offset, limit, total) ==
            match NextOffset(rule, offset, limit, total) case None => "" case Some(next) => Itoa(next)
    ensures NextOffset(rule, offset, limit, total).Some? ==> IsInt(NextOffset(rule, offset, limit, total).value)
  {
  }

  /** A listing call with a token is a call at the offset the token says. */
  lemma CallAtOffset<T>(rule: Rule, server: Server<T>, token: string, offset: int, size: int)
    requires Says(Some(token), Some(offset))
    ensures var limit := LimitOf(rule, size);
            if server.up then
              ListCall(rule, server, token, size) ==
              Ok(Page(Slice(server.items, if offset < 1 then 0 else offset - 1, Min(limit, server.cap)),
                      NextToken(rule, offset, limit, |server.items|)))
            else ListCall(rule, server, token, size).Err?
  {
    AtoiOfItoa(offset);
    assert PaginationOf(token, LimitOf(rule, size)) == Ok((offset, LimitOf(rule, size)));
    if server.up {
      FetchIsSlice(server, offset, LimitOf(rule, size));
    }
  }

  ghost predicate Follows<T>(p: Progress<T>, o: Offsets<T>) {
    Says(p.token, o.next) && p.got == o.got
  }

  lemma TokenStep<T>(rule: Rule, p: Progress<T>, o: Offsets<T>, c: Call<T>)
    requires Follows(p, o)
    ensures Follows(Step(rule, p, c), OffsetStep(rule, o, c))
  {
    if o.next.Some? {
      CallAtOffset(rule, c.server, p.token.value, o.next.value, c.size);
      TokenOfOffset(rule, o.next.value, LimitOf(rule, c.size), |c.server.items|);
    }
  }

  /** A run on tokens is the run on the offsets its tokens say, for every server, every page size and
      every total, overflow included: no offset is lost in printing and parsing. */
  lemma {:induction false} TokensFollowOffsets<T>(rule: Rule, calls: seq<Call<T>>, n: nat)
    requires n <= |calls|
    ensures Follows(Run(rule, calls, n), OffsetRun(rule, calls, n))
  {
    if n > 0 {
      TokensFollowOffsets(rule, calls, n - 1);
      TokenStep(rule, Run(rule, calls, n - 1), OffsetRun(rule, calls, n - 1), calls[n - 1]);
    }
  }

  // ----- One call

  /** Whether computing the next offset from a limit stays within what the stop rule can handle. */
  ghost predicate NoOverflow(rule: Rule, asked: nat, limit: nat) {
    match rule
    case Groups => 1 + asked + limit <= MAX_INT
    case Users => asked + limit <= MAX_INT
  }

  /** The next offset is the next unread position, if there is one, exactly when computing it does not
      overflow. */
  lemma NextOffsetRight(rule: Rule, asked: nat, limit: nat, total: nat)
    requires IsInt(1 + asked) && IsInt(limit) && IsInt(total) && limit > 0
    ensures NoOverflow(rule, asked, limit) <==>
            NextOffset(rule, 1 + asked, limit, total) == if asked + limit < total then Some(1 + asked + limit) else None
  {
  }

  lemma SliceExtends<T>(items: seq<T>, from: nat, count: nat)
    ensures items[..Min(from, |items|)] + Slice(items, from, count) == items[..Min(from + count, |items|)]
  {
  }

  /** A run that goes on has reached offset 1 + asked, and the next call's limit does not overflow it. */
  ghost predicate OnCourse<T>(rule: Rule, calls: seq<Call<T>>, n: nat)
    requires n < |calls|
  {
    var p, c, asked := OffsetRun(rule, calls, n), calls[n], Asked(rule, calls, n);
    p.next.Some? ==>
      && p.next == Some(1 + asked) && IsInt(1 + asked)
      && IsInt(|c.server.items|) && IsInt(LimitOf(rule, c.size))
      && NoOverflow(rule, asked, LimitOf(rule, c.size))
  }

  /** What call `n - 1` of a run does: its page follows what was got before, and the run goes on right
      after what it has asked for. */
  ghost predicate Advanced<T>(rule: Rule, calls: seq<Call<T>>, n: nat)
    requires 0 < n <= |calls|
  {
    var p, q, c := OffsetRun(rule, calls, n - 1), OffsetRun(rule, calls, n), calls[n - 1];
    if p.next.Some? && c.server.up then
      && q.next == (if Asked(rule, calls, n) < |c.server.items| then Some(1 + Asked(rule, calls, n)) else None)
      && q.got == p.got + Slice(c.server.items, Asked(rule, calls, n - 1), Min(LimitOf(rule, c.size), c.server.cap))
    else q == p
  }

  lemma LastCall<T>(rule: Rule, calls: seq<Call<T>>, n: nat)
    requires 0 < n <= |calls| && OnCourse(rule, calls, n - 1)
    ensures Advanced(rule, calls, n)
  {
    var p, c, asked := OffsetRun(rule, calls, n - 1), calls[n - 1], Asked(rule, calls, n - 1);
    assert OffsetRun(rule, calls, n) == OffsetStep(rule, p, c);
    if p.next.Some? && c.server.up {
      NextOffsetRight(rule, asked, LimitOf(rule, c.size), |c.server.items|);
      assert Asked(rule, calls, n) == asked + LimitOf(rule, c.size);
    }
  }

  // ----- Runs

  /** No call of the run can overflow, as long as no server holds more than `bound` items. */
  ghost predicate Fits<T>(rule: Rule, calls: seq<Call<T>>, bound: nat) {
    forall c :: c in calls ==>
      && |c.server.items| <= bound
      && IsInt(bound + LimitOf(rule, c.size)) && IsInt(1 + LimitOf(rule, c.size))
  }

  ghost predicate Within<T>(rule: Rule, calls: seq<Call<T>>, n: nat, bound: nat)
    requires n <= |calls|
  {
    var next, asked := OffsetRun(rule, calls, n).next, Asked(rule, calls, n);
    && (next.Some? ==> next == Some(1 + asked) && (asked == 0 || asked < bound))
    && (asked > 0 && asked >= bound ==> next == None)
  }

  lemma WithinIsOnCourse<T>(rule: Rule, calls: seq<Call<T>>, n: nat, bound: nat)
    requires n < |calls| && Fits(rule, calls, bound) && Within(rule, calls, n, bound)
    ensures OnCourse(rule, calls, n)
  {
    assert calls[n] in calls;
  }

  lemma AdvancedIsWithin<T>(rule: Rule, calls: seq<Call<T>>, n: nat, bound: nat)
    requires 0 < n <= |calls| && Fits(rule, calls, bound)
    requires Within(rule, calls, n - 1, bound) && Advanced(rule, calls, n)
    ensures Within(rule, calls, n, bound)
  {
    assert calls[n - 1] in calls;
  }

  lemma {:induction false} RunOffsets<T>(rule: Rule, calls: seq<Call<T>>, n: nat, bound: nat)
    requires n <= |calls| && Fits(rule, calls, bound)
    ensures Within(rule, calls, n, bound)
    ensures n > 0 ==> Advanced(rule, calls, n)
  {
    if n > 0 {
      RunOffsets(rule, calls, n - 1, bound);
      WithinIsOnCourse(rule, calls, n - 1, bound);
      LastCall(rule, calls, n);
      AdvancedIsWithin(rule, calls, n, bound);
    }
  }

  /** Termination, also when the totals change from call to call: a run that has not ended has asked for
      fewer items than the bound, and its token says the exact next offset, which is at most the
      bound. Every answered call asks for at least one more item. */
  lemma Termination<T>(rule: Rule, calls: seq<Call<T>>, n: nat, bound: nat)
    requires n <= |calls| && Fits(rule, calls, bound)
    ensures var token, asked := Run(rule, calls, n).token, Asked(rule, calls, n);
            && asked >= Answered(calls, n)
            && (token.Some? ==> Says(token, Some(1 + asked)) && (asked == 0 || 1 + asked <= bound))
            && (asked > 0 && asked >= bound ==> token == None)
  {
    RunOffsets(rule, calls, n, bound);
    TokensFollowOffsets(rule, calls, n);
  }

  /** Every call asks the same server. */
  ghost predicate SameItems<T>(calls: seq<Call<T>>, items: seq<T>) {
    forall c :: c in calls ==> c.server.items == items
  }

  /** With one fixed total the run ends exactly when it has asked for all of it. */
  lemma {:induction false} RunEnds<T>(rule: Rule, calls: seq<Call<T>>, n: nat, items: seq<T>)
    requires n <= |calls| && Fits(rule, calls, |items|) && SameItems(calls, items)
    ensures OffsetRun(rule, calls, n).next == None <==> Asked(rule, calls, n) > 0 && Asked(rule, calls, n) >= |items|
  {
    RunOffsets(rule, calls, n, |items|);
    if n > 0 {
      assert calls[n - 1] in calls;
      RunEnds(rule, calls, n - 1, items);
    }
  }

  lemma CoverageStep<T>(rule: Rule, calls: seq<Call<T>>, n: nat, items: seq<T>)
    requires 0 < n <= |calls| && Advanced(rule, calls, n)
    requires calls[n - 1].server.items == items && LimitOf(rule, calls[n - 1].size) <= calls[n - 1].server.cap
    requires var asked := Asked(rule, calls, n - 1);
             && OffsetRun(rule, calls, n - 1).got == items[..Min(asked, |items|)]
             && (OffsetRun(rule, calls, n - 1).next == None ==> asked >= |items|)
    ensures OffsetRun(rule, calls, n).got == items[..Min(Asked(rule, calls, n), |items|)]
  {
    SliceExtends(items, Asked(rule, calls, n - 1), LimitOf(rule, calls[n - 1].size));
  }

  lemma {:induction false} OffsetCoverage<T>(rule: Rule, calls: seq<Call<T>>, n: nat, items: seq<T>)
    requires n <= |calls| && Fits(rule, calls, |items|) && SameItems(calls, items)
    requires forall c :: c in calls ==> LimitOf(rule, c.size) <= c.server.cap
    ensures OffsetRun(rule, calls, n).got == items[..Min(Asked(rule, calls, n), |items|)]
  {
    if n > 0 {
      assert calls[n - 1] in calls;
      OffsetCoverage(rule, calls, n - 1, items);
      RunEnds(rule, calls, n - 1, items);
      RunOffsets(rule, calls, n, |items|);
      CoverageStep(rule, calls, n, items);
    }
  }

  /** Coverage: while the server fills its pages, whatever limit each call chooses, what a run has got
      is the list up to what it has asked for: in order, nothing skipped and nothing repeated. In
      particular a finished run has got the list, so starting at offset 1 is right. */
  lemma Coverage<T>(rule: Rule, calls: seq<Call<T>>, n: nat, items: seq<T>)
    requires n <= |calls| && Fits(rule, calls, |items|) && SameItems(calls, items)
    requires forall c :: c in calls ==> LimitOf(rule, c.size) <= c.server.cap
    ensures var p := Run(rule, calls, n);
            && p.got == items[..Min(Asked(rule, calls, n), |items|)]
            && (p.token == None ==> p.got == items)
  {
    OffsetCoverage(rule, calls, n, items);
    RunEnds(rule, calls, n, items);
    TokensFollowOffsets(rule, calls, n);
  }

  // ----- A fixed limit

  ghost predicate FixedLimit<T>(rule: Rule, calls: seq<Call<T>>, limit: nat) {
    forall c :: c in calls ==> LimitOf(rule, c.size) == limit
  }

  lemma OneMore(k: nat, limit: nat)
    ensures (k + 1) * limit == k * limit + limit
  {
  }

  lemma {:induction false} AskedFixed<T>(rule: Rule, calls: seq<Call<T>>, n: nat, limit: nat)
    requires n <= |calls| && FixedLimit(rule, calls, limit)
    ensures Asked(rule, calls, n) == Answered(calls, n) * limit
  {
    if n > 0 {
      assert calls[n - 1] in calls;
      AskedFixed(rule, calls, n - 1, limit);
      OneMore(Answered(calls, n - 1), limit);
    }
  }

  ghost function CallsNeeded(total: nat, limit: nat): nat
    requires limit > 0
  {
    if total == 0 then 1 else (total - 1) / limit + 1
  }

  /** A fixed-limit run makes exactly max(1, ceil(total / limit)) answered calls. */
  lemma CallCount<T>(rule: Rule, calls: seq<Call<T>>, items: seq<T>, limit: nat)
    requires limit > 0 && FixedLimit(rule, calls, limit)
    requires Fits(rule, calls, |items|) && SameItems(calls, items)
    ensures Run(rule, calls, |calls|).token == None <==> Answered(calls, |calls|) >= CallsNeeded(|items|, limit)
  {
    RunEnds(rule, calls, |calls|, items);
    TokensFollowOffsets(rule, calls, |calls|);
    AskedFixed(rule, calls, |calls|, limit);
    Ceiling(Answered(calls, |calls|), |items|, limit, Asked(rule, calls, |calls|));
  }

  lemma Ceiling(n: nat, total: nat, limit: nat, asked: nat)
    requires limit > 0 && asked == n * limit && (asked == 0 <==> n == 0)
    ensures asked > 0 && asked >= total <==> n >= CallsNeeded(total, limit)
  {
    if total > 0 {
      var q := (total - 1) / limit;
      assert q * limit <= total - 1 < (q + 1) * limit;
      if n >= q + 1 {
        Scale(q + 1, n, limit);
      } else {
        Scale(n, q, limit);
      }
    }
  }

  // ----- Short pages

  /** The first `n` items without the positions a server that returns at most `cap` items a page
      skips: a 0-based position is kept when its place on its page is below the cap. */
  ghost function Kept<T>(items: seq<T>, limit: nat, cap: nat, n: nat): seq<T>
    requires limit > 0 && n <= |items|
  {
    if n == 0 then []
    else Kept(items, limit, cap, n - 1) + if (n - 1) % limit < cap then [items[n - 1]] else []
  }

  /** One page that starts at a multiple of the limit. */
  lemma {:induction false} KeptPage<T>(items: seq<T>, limit: nat, cap: nat, pages: nat, n: nat)
    requires limit > 0 && n <= limit && pages * limit + n <= |items|
    ensures var base := pages * limit;
            Kept(items, limit, cap, base + n) == Kept(items, limit, cap, base) + Slice(items, base, Min(n, cap))
  {
    if n > 0 {
      KeptPage(items, limit, cap, pages, n - 1);
      PlaceOnPage(pages, limit, n - 1);
      SliceNext(items, pages * limit, n, cap);
    }
  }

  lemma SliceNext<T>(items: seq<T>, base: nat, n: nat, cap: nat)
    requires 0 < n && base + n <= |items|
    ensures Slice(items, base, Min(n, cap))
            == Slice(items, base, Min(n - 1, cap)) + if n - 1 < cap then [items[base + n - 1]] else []
  {
  }

  /** One request that starts at a multiple of the limit, on a list that may end before the page does. */
  lemma KeptSlice<T>(items: seq<T>, limit: nat, cap: nat, pages: nat, base: nat)
    requires limit > 0 && base == pages * limit && base <= |items|
    ensures Kept(items, limit, cap, Min(base + limit, |items|))
            == Kept(items, limit, cap, base) + Slice(items, base, Min(limit, cap))
  {
    var n := Min(limit, |items| - base);
    KeptPage(items, limit, cap, pages, n);
    assert Slice(items, base, Min(n, cap)) == Slice(items, base, Min(limit, cap));
  }

  lemma PlaceOnPage(pages: nat, limit: nat, k: nat)
    requires k < limit
    ensures (pages * limit + k) % limit == k
  {
    var x := pages * limit + k;
    var q := x / limit;
    assert q * limit + x % limit == x;
    if q + 1 <= pages {
      Scale(q + 1, pages, limit);
    } else if pages + 1 <= q {
      Scale(pages + 1, q, limit);
    }
  }

  lemma Scale(a: nat, b: nat, d: nat)
    requires a <= b
    ensures a * d <= b * d
  {
  }

  /** Everything is kept up to position `n` exactly when no page is cut short before it. */
  lemma {:induction false} KeptAll<T>(items: seq<T>, limit: nat, cap: nat, n: nat)
    requires limit > 0 && n <= |items|
    ensures |Kept(items, limit, cap, n)| <= n
    ensures cap >= limit || n <= cap ==> Kept(items, limit, cap, n) == items[..n]
    ensures cap < limit && n > cap ==> |Kept(items, limit, cap, n)| < n
  {
    if n > 0 {
      KeptAll(items, limit, cap, n - 1);
      if n - 1 < limit {
        PlaceOnPage(0, limit, n - 1);
      }
    }
  }

  lemma KeptNext<T>(rule: Rule, calls: seq<Call<T>>, n: nat, items: seq<T>, limit: nat, cap: nat)
    requires 0 < n <= |calls| && limit > 0 && FixedLimit(rule, calls, limit)
    requires calls[n - 1].server.up && Asked(rule, calls, n - 1) <= |items|
    ensures var asked := Asked(rule, calls, n - 1);
            Kept(items, limit, cap, Min(Asked(rule, calls, n), |items|))
            == Kept(items, limit, cap, Min(asked, |items|)) + Slice(items, asked, Min(limit, cap))
  {
    assert calls[n - 1] in calls;
    AskedFixed(rule, calls, n - 1, limit);
    KeptSlice(items, limit, cap, Answered(calls, n - 1), Asked(rule, calls, n - 1));
  }

  lemma {:induction false} ShortPagesGot<T>(rule: Rule, calls: seq<Call<T>>, n: nat, items: seq<T>, limit: nat, cap: nat)
    requires n <= |calls| && limit > 0 && FixedLimit(rule, calls, limit)
    requires Fits(rule, calls, |items|) && SameItems(calls, items)
    requires forall c :: c in calls ==> c.server.cap == cap
    ensures OffsetRun(rule, calls, n).got == Kept(items, limit, cap, Min(Asked(rule, calls, n), |items|))
  {
    if n > 0 {
      assert calls[n - 1] in calls;
      assert calls[n - 1].server.items == items && calls[n - 1].server.cap == cap && LimitOf(rule, calls[n - 1].size) == limit;
      ShortPagesGot(rule, calls, n - 1, items, limit, cap);
      RunEnds(rule, calls, n - 1, items);
      RunOffsets(rule, calls, n, |items|);
      if OffsetRun(rule, calls, n - 1).next.Some? && calls[n - 1].server.up {
        KeptNext(rule, calls, n, items, limit, cap);
      }
    }
  }

  /** Exact loss: with a fixed limit and a server that returns at most `cap` items a request, a run gets
      exactly the positions whose place on their page is below the cap; so a finished run has got the
      whole list exactly when the cap is not below the limit or the list is no longer than the cap. */
  lemma ShortPages<T>(rule: Rule, calls: seq<Call<T>>, n: nat, items: seq<T>, limit: nat, cap: nat)
    requires n <= |calls| && limit > 0 && FixedLimit(rule, calls, limit)
    requires Fits(rule, calls, |items|) && SameItems(calls, items)
    requires forall c :: c in calls ==> c.server.cap == cap
    ensures var p := Run(rule, calls, n);
            && p.got == Kept(items, limit, cap, Min(Asked(rule, calls, n), |items|))
            && (p.token == None ==> (p.got == items <==> cap >= limit || |items| <= cap))
  {
    ShortPagesGot(rule, calls, n, items, limit, cap);
    RunEnds(rule, calls, n, items);
    TokensFollowOffsets(rule, calls, n);
    KeptAll(items, limit, cap, |items|);
  }

  // ----- Page sizes

  /** The page from an offset on of at most `size` items, and the token for the page after it. */
  ghost predicate PageFrom<T>(server: Server<T>, offset: nat, size: nat, r: Result<Page<T>>)
    requires offset >= 1
  {
    var items := server.items;
    r == Ok(Page(items[Min(offset - 1, |items|)..Min(offset - 1 + Min(size, server.cap), |items|)],
                 if offset + size <= |items| then Itoa(offset + size) else ""))
  }

  /** The group listing asks for as many groups as it is told to. */
  lemma GroupPage<T>(server: Server<T>, token: string, offset: nat, size: nat)
    requires server.up && size > 0 && offset >= 1 && IsInt(offset + size) && IsInt(|server.items|)
    requires token == Itoa(offset) || (token == "" && offset == 1)
    ensures PageFrom(server, offset, size, ListCall(Groups, server, token, size))
  {
    CallAtOffset(Groups, server, token, offset, size);
    TokenOfOffset(Groups, offset, size, |server.items|);
    NextOffsetRight(Groups, offset - 1, size, |server.items|);
  }

  /** Told no size, it asks for a hundred. */
  lemma GroupPageUnsized<T>(server: Server<T>, token: string, offset: nat, size: int)
    requires server.up && size <= 0 && offset >= 1 && IsInt(offset + 100) && IsInt(|server.items|)
    requires token == Itoa(offset) || (token == "" && offset == 1)
    ensures PageFrom(server, offset, 100, ListCall(Groups, server, token, size))
  {
    CallAtOffset(Groups, server, token, offset, size);
    TokenOfOffset(Groups, offset, 100, |server.items|);
    NextOffsetRight(Groups, offset - 1, 100, |server.items|);
  }

  /** The user listing asks for a hundred, whatever it is told. */
  lemma UserPage<T>(server: Server<T>, token: string, offset: nat, size: int)
    requires server.up && offset >= 1 && IsInt(offset + 100) && IsInt(|server.items|)
    requires token == Itoa(offset) || (token == "" && offset == 1)
    ensures PageFrom(server, offset, 100, ListCall(Users, server, token, size))
  {
    CallAtOffset(Users, server, token, offset, size);
    TokenOfOffset(Users, offset, 100, |server.items|);
    NextOffsetRight(Users, offset - 1, 100, |server.items|);
  }

  /** So a group listing with one page size ends exactly when its answered calls have room for all
      groups, and it makes at least one. */
  lemma GroupCallCount<T>(calls: seq<Call<T>>, items: seq<T>, size: nat)
    requires size > 0 && IsInt(|items| + size) && SameItems(calls, items)
    requires IsInt(1 + size) && forall c :: c in calls ==> c.size == size
    ensures Run(Groups, calls, |calls|).token == None <==>
            Answered(calls, |calls|) >= 1 && Answered(calls, |calls|) * size >= |items|
  {
    RunEnds(Groups, calls, |calls|, items);
    TokensFollowOffsets(Groups, calls, |calls|);
    AskedFixed(Groups, calls, |calls|, size);
  }

  lemma UserCallCount<T>(calls: seq<Call<T>>, items: seq<T>)
    requires IsInt(|items| + 100) && SameItems(calls, items)
    ensures Run(Users, calls, |calls|).token == None <==>
            Answered(calls, |calls|) >= 1 && Answered(calls, |calls|) * 100 >= |items|
  {
    RunEnds(Users, calls, |calls|, items);
    TokensFollowOffsets(Users, calls, |calls|);
    AskedFixed(Users, calls, |calls|, 100);
  }

  // ----- Overflow

  /** What happens otherwise: when the groups' next offset overflows, the run has already got the whole
      list but goes on, and its next answered call serves the first item again. */
  lemma OverflowServesTwice<T>(p: Offsets<T>, c: Call<T>, d: Call<T>, asked: nat)
    requires asked < |c.server.items| <= MAX_INT
    requires p.next == Some(1 + asked) && p.got == c.server.items[..asked]
    requires c.server.up && d.server.up && d.server.items == c.server.items
    requires IsInt(LimitOf(Groups, c.size))
    requires LimitOf(Groups, c.size) <= c.server.cap && d.server.cap > 0
    requires !NoOverflow(Groups, asked, LimitOf(Groups, c.size))
    ensures var q := OffsetStep(Groups, p, c);
            && q.got == c.server.items && q.next.Some?
            && var r := OffsetStep(Groups, q, d); |r.got| > |q.got| && r.got[|q.got|] == c.server.items[0]
  {
    var limit := LimitOf(Groups, c.size);
    SliceExtends(c.server.items, asked, limit);
    var next := 1 + asked + limit;
    assert Wrap(next) == next - TWO_TO_64 < 0;
  }
}
