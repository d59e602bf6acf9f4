/** Membership changes as interleaved steps. A read-modify-write operation reads the list at one step and
    replaces it at a later one; other operations may act in between. */
module Concurrency {
  import opened Resources
  import opened Text
  import opened Membership

  datatype Op = GroupGrant(user: string) | GroupRevoke(user: string) | IdpRemove(user: string) | IdpAdd(user: string)

  /** The list an operation makes of the list it acts on. */
  function Effect(op: Op, members: seq<string>): seq<string> {
    if op.GroupGrant? || op.IdpAdd? then Added(members, op.user) else Removed(members, op.user)
  }

  /** User-group lists travel comma-joined. */
  predicate Joined(op: Op) {
    op.GroupGrant? || op.GroupRevoke?
  }

  /** What the server stores when an operation sends its list. */
  function Stored(op: Op, toSend: seq<string>, refusesEmpty: bool): Option<seq<string>> {
    if Joined(op) then OnWire(toSend, refusesEmpty) else OnPatch(toSend, refusesEmpty)
  }

  /** `Read` and `Write` are the two halves of operation `id`, `Atomic` is an IDP add, and `Abort` is an
      operation that fails between its halves. */
  datatype Event = Read(id: nat, op: Op) | Write(id: nat) | Atomic(user: string) | Abort(id: nat)

  /** An operation past its read, with the list it read. `seen` and `at` are bookkeeping for the statements
      below: the history behind that list and the number of writes so far. */
  datatype Pending = Pending(op: Op, read: seq<string>, seen: seq<Op>, at: nat) {
    function ToSend(): seq<string> {
      Effect(op, read)
    }
  }

  /** The server's list and the operations in flight. `history` is the chain of operations the current
      list is made of, following each write back to the read it is based on; `writes` is every write
      that the server carried out. */
  datatype State = State(members: seq<string>, pending: map<nat, Pending>, history: seq<Op>, writes: seq<Op>)

  function Initial(members: seq<string>): State {
    State(members, map[], [], [])
  }

  /** A write that the server carries out. */
  predicate Accepted(s: State, e: Event, refusesEmpty: bool) {
    && e.Write? && e.id in s.pending
    && Stored(s.pending[e.id].op, s.pending[e.id].ToSend(), refusesEmpty).Some?
  }

  function Next(s: State, e: Event, refusesEmpty: bool): State {
    match e
    case Read(id, op) =>
      // an operation with nothing to do ends at its read
      if op.IdpAdd? || id in s.pending || Effect(op, s.members) == s.members then s
      else s.(pending := s.pending[id := Pending(op, s.members, s.history, |s.writes|)])
    case Write(id) =>
      var ended := s.(pending := s.pending - {id});
      if !Accepted(s, e, refusesEmpty) then ended
      else
        var p := s.pending[id];
        ended.(members := Stored(p.op, p.ToSend(), refusesEmpty).value,
               history := p.seen + [p.op], writes := s.writes + [p.op])
    case Atomic(user) =>
      s.(members := Added(s.members, user), history := s.history + [IdpAdd(user)], writes := s.writes + [IdpAdd(user)])
    case Abort(id) => s.(pending := s.pending - {id})
  }

  function Run(members: seq<string>, events: seq<Event>, n: nat, refusesEmpty: bool): State
    requires n <= |events|
  {
    if n == 0 then Initial(members) else Next(Run(members, events, n - 1, refusesEmpty), events[n - 1], refusesEmpty)
  }

  /** What the operations of `Membership` make of a list. */
  function Alone(op: Op, members: seq<string>, refusesEmpty: bool): seq<string> {
    match op
    case GroupGrant(user) => GrantedList(members, user, refusesEmpty)
    case GroupRevoke(user) => RevokedList(members, user, refusesEmpty)
    case IdpRemove(user) => PatchedList(members, user, refusesEmpty)
    case IdpAdd(user) => Added(members, user)
  }

  lemma ShortCircuits(op: Op, members: seq<string>)
    requires !op.IdpAdd?
    ensures Effect(op, members) == members <==> (op.GroupGrant? <==> op.user in members)
  {
    RemovedExact(members, op.user);
  }

  /** The two halves back to back are the whole operation, as `GrantUserGroup`, `RevokeUserGroup` and
      `RemoveUserFromGroup` carry it out; it is a no-op at its read exactly when those short-circuit. */
  lemma ReadThenWrite(s: State, id: nat, op: Op, refusesEmpty: bool)
    requires id !in s.pending && !op.IdpAdd?
    ensures Next(s, Read(id, op), refusesEmpty) == s <==> (op.GroupGrant? <==> op.user in s.members)
    ensures var t := Next(Next(s, Read(id, op), refusesEmpty), Write(id), refusesEmpty);
            t.pending == s.pending && t.members == Alone(op, s.members, refusesEmpty)
  {
    ShortCircuits(op, s.members);
    var mid := Next(s, Read(id, op), refusesEmpty);
    assert mid.pending - {id} == s.pending;
  }

  /** An IDP add takes effect at once, on the list as it is, and leaves the operations in flight alone. */
  lemma AtomicActs(s: State, user: string, refusesEmpty: bool)
    ensures var t := Next(s, Atomic(user), refusesEmpty);
            && t.members == Alone(IdpAdd(user), s.members, refusesEmpty)
            && user in t.members && Removed(t.members, user) == Removed(s.members, user)
            && t.pending == s.pending && t.writes == s.writes + [IdpAdd(user)]
  {
    AddRemoveIdempotent(s.members, user);
  }

  /** An operation that failed between its halves writes nothing. */
  lemma AbortedIsGone(s: State, id: nat, refusesEmpty: bool)
    ensures var t := Next(s, Abort(id), refusesEmpty);
            && t.members == s.members && t.writes == s.writes && t.pending == s.pending - {id}
            && Next(t, Write(id), refusesEmpty) == t
  {
    var t := Next(s, Abort(id), refusesEmpty);
    assert t.pending - {id} == t.pending;
  }

  /** An operation that has something to do stays in flight with the list it read until it is written or
      aborted, whatever happens in between. */
  lemma {:induction false} StaysInFlight(members: seq<string>, events: seq<Event>, j: nat, k: nat, refusesEmpty: bool)
    requires j < k <= |events| && events[j].Read? && !events[j].op.IdpAdd?
    requires var s := Run(members, events, j, refusesEmpty);
             events[j].id !in s.pending && Effect(events[j].op, s.members) != s.members
    requires forall i :: j < i < k ==> events[i] != Write(events[j].id) && events[i] != Abort(events[j].id)
    ensures var t := Run(members, events, k, refusesEmpty);
            && events[j].id in t.pending
            && t.pending[events[j].id].op == events[j].op
            && t.pending[events[j].id].read == Run(members, events, j, refusesEmpty).members
  {
    if k > j + 1 {
      StaysInFlight(members, events, j, k - 1, refusesEmpty);
    }
  }

  /** A write, however late, replaces the whole list by what its operation makes of the list it read. */
  lemma LateWrite(members: seq<string>, events: seq<Event>, j: nat, k: nat, refusesEmpty: bool)
    requires j < k < |events| && events[j].Read? && !events[j].op.IdpAdd? && events[k] == Write(events[j].id)
    requires var s := Run(members, events, j, refusesEmpty);
             events[j].id !in s.pending && Effect(events[j].op, s.members) != s.members
    requires forall i :: j < i < k ==> events[i] != Write(events[j].id) && events[i] != Abort(events[j].id)
    ensures var read := Run(members, events, j, refusesEmpty).members;
            var before, after := Run(members, events, k, refusesEmpty), Run(members, events, k + 1, refusesEmpty);
            var stored := Stored(events[j].op, Effect(events[j].op, read), refusesEmpty);
            && after.members == stored.GetOr(before.members)
            && after.writes == before.writes + (if stored.Some? then [events[j].op] else [])
            && events[j].id !in after.pending
  {
    StaysInFlight(members, events, j, k, refusesEmpty);
  }

  /** What the server carried out in a run: every IDP add and every write it accepted, in event order. */
  function CarriedOut(members: seq<string>, events: seq<Event>, n: nat, refusesEmpty: bool): seq<Op>
    requires n <= |events|
  {
    if n == 0 then []
    else
      var s, e := Run(members, events, n - 1, refusesEmpty), events[n - 1];
      CarriedOut(members, events, n - 1, refusesEmpty)
      + if e.Atomic? then [IdpAdd(e.user)] else if Accepted(s, e, refusesEmpty) then [s.pending[e.id].op] else []
  }

  lemma {:induction false} WritesAreCarriedOut(members: seq<string>, events: seq<Event>, n: nat, refusesEmpty: bool)
    requires n <= |events|
    ensures Run(members, events, n, refusesEmpty).writes == CarriedOut(members, events, n, refusesEmpty)
  {
    if n > 0 {
      WritesAreCarriedOut(members, events, n - 1, refusesEmpty);
    }
  }

  /** The operations carried out one after the other, each alone. */
  function Sequentially(members: seq<string>, ops: seq<Op>): seq<string> {
    if ops == [] then members else Effect(ops[|ops| - 1], Sequentially(members, ops[..|ops| - 1]))
  }

  /** A write is isolated when no write happened since its operation's read. */
  predicate IsolatedStep(s: State, e: Event, refusesEmpty: bool) {
    Accepted(s, e, refusesEmpty) ==> s.pending[e.id].at == |s.writes|
  }

  ghost predicate Isolated(members: seq<string>, events: seq<Event>, n: nat, refusesEmpty: bool)
    requires n <= |events|
  {
    n == 0 || (Isolated(members, events, n - 1, refusesEmpty)
               && IsolatedStep(Run(members, events, n - 1, refusesEmpty), events[n - 1], refusesEmpty))
  }

  // ----- Every run

  ghost predicate SendableOps(events: seq<Event>) {
    && (forall k :: 0 <= k < |events| && events[k].Read? ==> ',' !in events[k].op.user && events[k].op.user != "")
    && (forall k :: 0 <= k < |events| && events[k].Atomic? ==> ',' !in events[k].user && events[k].user != "")
  }

  ghost predicate SomeJoined(events: seq<Event>) {
    exists k :: 0 <= k < |events| && events[k].Read? && Joined(events[k].op)
  }

  /** Only lists that travel comma-joined ask for IDs that can: not empty and without a comma. */
  ghost predicate Deliverable(members: seq<string>, events: seq<Event>) {
    SomeJoined(events) ==> Sendable(members) && SendableOps(events)
  }

  lemma EffectSendable(op: Op, members: seq<string>)
    requires Sendable(members) && ',' !in op.user && op.user != ""
    ensures Sendable(Effect(op, members))
  {
    if op.GroupRevoke? || op.IdpRemove? {
      RemovedMembers(members, op.user);
    }
  }

  /** What holds after every step: the list is its history carried out one operation after the other, so
      is every list in flight, and those histories leave out some of the writes at most. */
  ghost predicate Explained(members: seq<string>, s: State, joined: bool) {
    && (joined ==> Sendable(s.members))
    && s.members == Sequentially(members, s.history)
    && Subsequence(s.history, s.writes)
    && |s.history| <= |s.writes|
    && (|s.history| == |s.writes| ==> s.history == s.writes)
    && forall id :: id in s.pending ==> ExplainedPending(members, s, s.pending[id], joined)
  }

  ghost predicate ExplainedPending(members: seq<string>, s: State, p: Pending, joined: bool) {
    && !p.op.IdpAdd? && (Joined(p.op) ==> joined) && (joined ==> Sendable(p.ToSend()))
    && p.read == Sequentially(members, p.seen)
    && Subsequence(p.seen, s.writes)
    && |p.seen| <= p.at <= |s.writes|
    && (|p.seen| == p.at ==> p.seen == s.writes[..p.at])
    && (p.at == |s.writes| ==> p.seen == s.history)
  }

  lemma SequentiallySnoc(members: seq<string>, ops: seq<Op>, op: Op)
    ensures Sequentially(members, ops + [op]) == Effect(op, Sequentially(members, ops))
  {
  }

  /** A pending operation stays explained while another write is carried out. */
  lemma PendingExplained(members: seq<string>, s: State, t: State, p: Pending, op: Op, joined: bool)
    requires ExplainedPending(members, s, p, joined) && t.writes == s.writes + [op]
    ensures ExplainedPending(members, t, p, joined)
  {
    SubsequenceSnoc(p.seen, s.writes, op);
  }

  /** An explained list arrives as sent. */
  lemma StoredAsSent(members: seq<string>, s: State, e: Event, refusesEmpty: bool, joined: bool)
    requires Explained(members, s, joined) && Accepted(s, e, refusesEmpty)
    ensures Next(s, e, refusesEmpty).members == s.pending[e.id].ToSend()
  {
    var p := s.pending[e.id];
    assert ExplainedPending(members, s, p, joined);
    if Joined(p.op) {
      WireRoundTrip(p.ToSend(), refusesEmpty);
    }
  }

  lemma WriteExplained(members: seq<string>, s: State, e: Event, refusesEmpty: bool, joined: bool)
    requires Explained(members, s, joined) && e.Write?
    ensures Explained(members, Next(s, e, refusesEmpty), joined)
  {
    var t := Next(s, e, refusesEmpty);
    if Accepted(s, e, refusesEmpty) {
      var p := s.pending[e.id];
      assert ExplainedPending(members, s, p, joined);
      StoredAsSent(members, s, e, refusesEmpty, joined);
      SequentiallySnoc(members, p.seen, p.op);
      SubsequenceSnoc(p.seen, s.writes, p.op);
      forall i | i in t.pending ensures ExplainedPending(members, t, t.pending[i], joined) {
        PendingExplained(members, s, t, s.pending[i], p.op, joined);
      }
    } else {
      assert forall i :: i in t.pending ==> ExplainedPending(members, s, s.pending[i], joined);
    }
  }

  lemma AtomicExplained(members: seq<string>, s: State, user: string, refusesEmpty: bool, joined: bool)
    requires Explained(members, s, joined) && (joined ==> ',' !in user && user != "")
    ensures Explained(members, Next(s, Atomic(user), refusesEmpty), joined)
  {
    var t := Next(s, Atomic(user), refusesEmpty);
    SubsequenceSnoc(s.history, s.writes, IdpAdd(user));
    SequentiallySnoc(members, s.history, IdpAdd(user));
    forall i | i in t.pending ensures ExplainedPending(members, t, t.pending[i], joined) {
      PendingExplained(members, s, t, s.pending[i], IdpAdd(user), joined);
    }
  }

  lemma NextExplained(members: seq<string>, s: State, e: Event, refusesEmpty: bool, joined: bool)
    requires Explained(members, s, joined)
    requires e.Read? && Joined(e.op) ==> joined
    requires e.Read? && joined ==> ',' !in e.op.user && e.op.user != ""
    requires e.Atomic? && joined ==> ',' !in e.user && e.user != ""
    ensures Explained(members, Next(s, e, refusesEmpty), joined)
  {
    match e
    case Read(id, op) =>
      if joined {
        EffectSendable(op, s.members);
      }
      assert s.writes[..|s.writes|] == s.writes;
    case Write(id) => WriteExplained(members, s, e, refusesEmpty, joined);
    case Atomic(user) => AtomicExplained(members, s, user, refusesEmpty, joined);
    case Abort(id) =>
  }

  /** The bookkeeping above is faithful in every run, isolated or not. */
  lemma {:induction false} RunExplained(members: seq<string>, events: seq<Event>, n: nat, refusesEmpty: bool)
    requires n <= |events| && Deliverable(members, events)
    ensures Explained(members, Run(members, events, n, refusesEmpty), SomeJoined(events))
  {
    if n > 0 {
      RunExplained(members, events, n - 1, refusesEmpty);
      NextExplained(members, Run(members, events, n - 1, refusesEmpty), events[n - 1], refusesEmpty, SomeJoined(events));
    }
  }

  /** Once a write has been dropped from the history it stays dropped. */
  ghost predicate Lossy(s: State) {
    && |s.history| < |s.writes|
    && forall id :: id in s.pending && s.pending[id].at == |s.writes| ==> |s.pending[id].seen| < |s.writes|
  }

  ghost predicate WholeOrLossy(s: State, isolated: bool) {
    if isolated then s.history == s.writes else Lossy(s)
  }

  lemma NextWholeOrLossy(members: seq<string>, s: State, e: Event, refusesEmpty: bool, joined: bool, isolated: bool)
    requires Explained(members, s, joined) && WholeOrLossy(s, isolated)
    ensures WholeOrLossy(Next(s, e, refusesEmpty), isolated && IsolatedStep(s, e, refusesEmpty))
  {
    assert forall id :: id in s.pending ==> ExplainedPending(members, s, s.pending[id], joined);
  }

  lemma {:induction false} HistoryOrLoss(members: seq<string>, events: seq<Event>, n: nat, refusesEmpty: bool)
    requires n <= |events| && Deliverable(members, events)
    ensures WholeOrLossy(Run(members, events, n, refusesEmpty), Isolated(members, events, n, refusesEmpty))
  {
    if n > 0 {
      HistoryOrLoss(members, events, n - 1, refusesEmpty);
      RunExplained(members, events, n - 1, refusesEmpty);
      NextWholeOrLossy(members, Run(members, events, n - 1, refusesEmpty), events[n - 1], refusesEmpty,
                       SomeJoined(events), Isolated(members, events, n - 1, refusesEmpty));
    }
  }

  /** In every run the server's list is what some of the writes give when carried out one after the other
      in write order. When every write was isolated, those are all of the writes. When some write was not,
      a write is missing from the chain of reads and writes that led to the list; whether that shows in the
      list is what `SerialExactly` says. */
  lemma Serialisable(members: seq<string>, events: seq<Event>, refusesEmpty: bool)
    requires Deliverable(members, events)
    ensures var s := Run(members, events, |events|, refusesEmpty);
            var done := CarriedOut(members, events, |events|, refusesEmpty);
            && s.members == Sequentially(members, s.history)
            && Subsequence(s.history, done)
            && (Isolated(members, events, |events|, refusesEmpty) ==> s.members == Sequentially(members, done))
            && (s.history == done <==> Isolated(members, events, |events|, refusesEmpty))
            && (!Isolated(members, events, |events|, refusesEmpty) ==> |s.history| < |done|)
  {
    WritesAreCarriedOut(members, events, |events|, refusesEmpty);
    RunExplained(members, events, |events|, refusesEmpty);
    HistoryOrLoss(members, events, |events|, refusesEmpty);
  }

  // ----- Membership as a set

  ghost function Members(list: seq<string>): set<string> {
    set m | m in list
  }

  ghost function Holding(who: set<string>, ops: seq<Op>): set<string> {
    if ops == [] then who
    else
      var op, before := ops[|ops| - 1], Holding(who, ops[..|ops| - 1]);
      if op.GroupGrant? || op.IdpAdd? then before + {op.user} else before - {op.user}
  }

  lemma HoldingSnoc(who: set<string>, ops: seq<Op>, op: Op)
    ensures Holding(who, ops + [op]) ==
            if op.GroupGrant? || op.IdpAdd? then Holding(who, ops) + {op.user} else Holding(who, ops) - {op.user}
  {
    assert (ops + [op])[..|ops|] == ops;
  }

  lemma EffectMembers(op: Op, list: seq<string>)
    ensures Members(Effect(op, list)) ==
            if op.GroupGrant? || op.IdpAdd? then Members(list) + {op.user} else Members(list) - {op.user}
  {
    RemovedMembers(list, op.user);
  }

  /** The membership is the initial one with the writes so far folded over it in write order. */
  ghost predicate Serial(members: seq<string>, s: State) {
    Members(s.members) == Holding(Members(members), s.writes)
  }

  /** A write is undisturbed when everybody else's membership is still what its operation read. A caller
      can see that by reading the list again before writing. */
  ghost predicate Undisturbed(s: State, e: Event, refusesEmpty: bool) {
    Accepted(s, e, refusesEmpty) ==>
      var p := s.pending[e.id];
      Members(p.read) - {p.op.user} == Members(s.members) - {p.op.user}
  }

  /** A step from a serial state leads to a serial state exactly when it is not a disturbed write. */
  lemma SerialStep(members: seq<string>, s: State, e: Event, refusesEmpty: bool, joined: bool)
    requires Explained(members, s, joined) && Serial(members, s)
    ensures Serial(members, Next(s, e, refusesEmpty)) <==> Undisturbed(s, e, refusesEmpty)
  {
    if e.Atomic? {
      HoldingSnoc(Members(members), s.writes, IdpAdd(e.user));
      EffectMembers(IdpAdd(e.user), s.members);
    } else if Accepted(s, e, refusesEmpty) {
      var p := s.pending[e.id];
      StoredAsSent(members, s, e, refusesEmpty, joined);
      HoldingSnoc(Members(members), s.writes, p.op);
      EffectMembers(p.op, p.read);
      SameButOne(Members(p.read), Members(s.members), p.op.user);
    }
  }

  lemma SameButOne(a: set<string>, b: set<string>, x: string)
    ensures a + {x} == b + {x} <==> a - {x} == b - {x}
  {
    assert a - {x} == (a + {x}) - {x} && b - {x} == (b + {x}) - {x};
    assert a + {x} == (a - {x}) + {x} && b + {x} == (b - {x}) + {x};
  }

  /** The membership after `n` events is the initial one with what the server carried out folded over it. */
  ghost predicate SerialAfter(members: seq<string>, events: seq<Event>, n: nat, refusesEmpty: bool)
    requires n <= |events|
  {
    Members(Run(members, events, n, refusesEmpty).members)
    == Holding(Members(members), CarriedOut(members, events, n, refusesEmpty))
  }

  lemma SerialStates(members: seq<string>, events: seq<Event>, n: nat, refusesEmpty: bool)
    requires n <= |events|
    ensures SerialAfter(members, events, n, refusesEmpty) <==> Serial(members, Run(members, events, n, refusesEmpty))
  {
    WritesAreCarriedOut(members, events, n, refusesEmpty);
  }

  ghost predicate UndisturbedAt(members: seq<string>, events: seq<Event>, k: nat, refusesEmpty: bool)
    requires k < |events|
  {
    Undisturbed(Run(members, events, k, refusesEmpty), events[k], refusesEmpty)
  }

  lemma SerialOn(members: seq<string>, events: seq<Event>, n: nat, refusesEmpty: bool)
    requires n < |events| && Deliverable(members, events) && SerialAfter(members, events, n, refusesEmpty)
    ensures SerialAfter(members, events, n + 1, refusesEmpty)
            <==> UndisturbedAt(members, events, n, refusesEmpty)
  {
    SerialStates(members, events, n, refusesEmpty);
    SerialStates(members, events, n + 1, refusesEmpty);
    var s := Run(members, events, n, refusesEmpty);
    RunExplained(members, events, n, refusesEmpty);
    SerialStep(members, s, events[n], refusesEmpty, SomeJoined(events));
    assert Run(members, events, n + 1, refusesEmpty) == Next(s, events[n], refusesEmpty);
  }

  lemma {:induction false} AllAlong(p: nat -> bool, q: nat -> bool, n: nat)
    requires p(0) && forall k: nat :: k < n && p(k) ==> (p(k + 1) <==> q(k))
    ensures (forall k: nat :: k <= n ==> p(k)) <==> (forall k: nat :: k < n ==> q(k))
  {
    if n > 0 {
      AllAlong(p, q, n - 1);
      assert p(n - 1) ==> (p(n) <==> q(n - 1)) by {
        var k := n - 1;
        assert k < n && p(k) ==> (p(k + 1) <==> q(k));
      }
    }
  }

  /** Serialisability, exactly: the membership is the fold of what the server carried out all along a run
      if and only if every write it accepted was undisturbed. */
  lemma SerialExactly(members: seq<string>, events: seq<Event>, refusesEmpty: bool)
    requires Deliverable(members, events)
    ensures (forall k :: 0 <= k <= |events| ==> SerialAfter(members, events, k, refusesEmpty))
            <==> forall k :: 0 <= k < |events| ==> UndisturbedAt(members, events, k, refusesEmpty)
  {
    var p := (k: nat) => k <= |events| && SerialAfter(members, events, k, refusesEmpty);
    var q := (k: nat) => k < |events| && UndisturbedAt(members, events, k, refusesEmpty);
    forall k: nat | k < |events| ensures p(k) ==> (p(k + 1) <==> q(k)) {
      if p(k) {
        SerialOn(members, events, k, refusesEmpty);
      }
    }
    SerialStates(members, events, 0, refusesEmpty);
    AllAlong(p, q, |events|);
    assert forall k: nat :: k <= |events| ==> (p(k) <==> SerialAfter(members, events, k, refusesEmpty));
    assert forall k: nat :: k < |events| ==> (q(k) <==> UndisturbedAt(members, events, k, refusesEmpty));
  }

  /** An isolated write is undisturbed: it is based on the current list. */
  lemma IsolatedIsUndisturbed(members: seq<string>, s: State, e: Event, refusesEmpty: bool, joined: bool)
    requires Explained(members, s, joined) && IsolatedStep(s, e, refusesEmpty)
    ensures Undisturbed(s, e, refusesEmpty)
  {
    if Accepted(s, e, refusesEmpty) {
      assert ExplainedPending(members, s, s.pending[e.id], joined);
    }
  }

  lemma {:induction false} IsolatedRun(members: seq<string>, events: seq<Event>, n: nat, refusesEmpty: bool)
    requires n <= |events| && Deliverable(members, events) && Isolated(members, events, n, refusesEmpty)
    ensures forall k :: 0 <= k < n ==> UndisturbedAt(members, events, k, refusesEmpty)
  {
    if n > 0 {
      IsolatedRun(members, events, n - 1, refusesEmpty);
      RunExplained(members, events, n - 1, refusesEmpty);
      IsolatedIsUndisturbed(members, Run(members, events, n - 1, refusesEmpty), events[n - 1], refusesEmpty,
                            SomeJoined(events));
    }
  }

  /** The membership set after an isolated run is the initial one with the adds and removes folded over
      it in write order; operations that ended at their read contribute nothing. */
  lemma IsolatedMembership(members: seq<string>, events: seq<Event>, refusesEmpty: bool)
    requires Deliverable(members, events) && Isolated(members, events, |events|, refusesEmpty)
    ensures SerialAfter(members, events, |events|, refusesEmpty)
  {
    IsolatedRun(members, events, |events|, refusesEmpty);
    SerialExactly(members, events, refusesEmpty);
  }

  /** A granted user can be lost: two grants that both read before either writes. */
  lemma LostGrant(members: seq<string>, u: string, v: string, refusesEmpty: bool)
    requires Sendable(members) && Sendable([u, v]) && u != v && u !in members && v !in members
    ensures var events := [Read(0, GroupGrant(u)), Read(1, GroupGrant(v)), Write(0), Write(1)];
            var s := Run(members, events, 4, refusesEmpty);
            s.writes == [GroupGrant(u), GroupGrant(v)] && s.members == members + [v]
  {
    var events := [Read(0, GroupGrant(u)), Read(1, GroupGrant(v)), Write(0), Write(1)];
    var s1 := Run(members, events, 1, refusesEmpty);
    var s2 := Run(members, events, 2, refusesEmpty);
    var s3 := Run(members, events, 3, refusesEmpty);
    assert Run(members, events, 0, refusesEmpty) == Initial(members);
    assert s1 == Next(Initial(members), events[0], refusesEmpty);
    assert s2 == Next(s1, events[1], refusesEmpty);
    assert u in [u, v] && v in [u, v];
    WireRoundTrip(members + [u], refusesEmpty);
    WireRoundTrip(members + [v], refusesEmpty);
    assert s3 == Next(s2, events[2], refusesEmpty);
  }

  /** Not every overlap does harm: when both grants are for one user, the second write is not isolated and
      yet undisturbed. */
  lemma HarmlessOverlap(members: seq<string>, u: string, refusesEmpty: bool)
    requires Sendable(members + [u]) && u !in members
    ensures var events := [Read(0, GroupGrant(u)), Read(1, GroupGrant(u)), Write(0), Write(1)];
            var s := Run(members, events, 4, refusesEmpty);
            && !Isolated(members, events, 4, refusesEmpty)
            && s.members == Sequentially(members, s.writes) == members + [u]
  {
    var events := [Read(0, GroupGrant(u)), Read(1, GroupGrant(u)), Write(0), Write(1)];
    var s1 := Run(members, events, 1, refusesEmpty);
    var s2 := Run(members, events, 2, refusesEmpty);
    var s3 := Run(members, events, 3, refusesEmpty);
    assert Run(members, events, 0, refusesEmpty) == Initial(members);
    assert s1 == Next(Initial(members), events[0], refusesEmpty);
    assert s2 == Next(s1, events[1], refusesEmpty);
    WireRoundTrip(members + [u], refusesEmpty);
    assert s3 == Next(s2, events[2], refusesEmpty);
    assert !IsolatedStep(s3, events[3], refusesEmpty);
    SequentiallySnoc(members, [], GroupGrant(u));
    SequentiallySnoc(members, [GroupGrant(u)], GroupGrant(u));
  }
}
