/**
 Row locks taken by concurrent uploads, submissions, reviews and filing-date orders. A
 transaction keeps what it locked until it ends; it waits while another transaction holds a
 conflicting lock on the row it needs next.
 */
module RowLocks {
  import opened Common

  datatype Row = User(id: nat) | Envelope(id: nat) | Court(id: nat) | CaseType(id: nat) | Case(id: nat)
  datatype Mode = Shared | Exclusive
  datatype Lock = Lock(row: Row, mode: Mode)

  /** Where a filing goes: the rows its destination check reads under a shared lock. */
  datatype Destination = Destination(filing: nat, court: nat, caseType: nat, caseId: Option<nat>)

  datatype Request =
    | Upload(user: nat, filing: nat)
    | Submission(user: nat, to: Destination)
    | Review(user: nat, items: seq<Destination>)
    | DateOrder(user: nat, filing: nat, caseId: Option<nat>)

  /** A batch review sorts its filings; a single review is a batch of one. */
  ghost predicate WellFormed(r: Request) {
    r.Review? ==> forall i, j | 0 <= i < j < |r.items| :: r.items[i].filing < r.items[j].filing
  }

  function EnvelopeLocks(items: seq<Destination>): (ls: seq<Lock>)
    ensures |ls| == |items| && forall k | 0 <= k < |ls| :: ls[k] == Lock(Envelope(items[k].filing), Exclusive)
  {
    if items == [] then [] else [Lock(Envelope(items[0].filing), Exclusive)] + EnvelopeLocks(items[1..])
  }

  function DestinationLocks(to: Destination): (ls: seq<Lock>)
    ensures forall l | l in ls :: l.mode == Shared && !l.row.User? && !l.row.Envelope?
  {
    [Lock(Court(to.court), Shared), Lock(CaseType(to.caseType), Shared)]
    + if to.caseId.Some? then [Lock(Case(to.caseId.value), Shared)] else []
  }

  function AllDestinationLocks(items: seq<Destination>): (ls: seq<Lock>)
    ensures forall l | l in ls :: l.mode == Shared && !l.row.User? && !l.row.Envelope?
  {
    if items == [] then [] else DestinationLocks(items[0]) + AllDestinationLocks(items[1..])
  }

  /** The locks a request takes, in the order it takes them. */
  function Program(r: Request): seq<Lock> {
    match r
    case Upload(u, f) => [Lock(User(u), Shared), Lock(Envelope(f), Exclusive)]
    case Submission(u, to) => [Lock(User(u), Shared)] + EnvelopeLocks([to]) + DestinationLocks(to)
    case Review(u, items) => [Lock(User(u), Shared)] + EnvelopeLocks(items) + AllDestinationLocks(items)
    case DateOrder(u, f, c) =>
      [Lock(User(u), Shared), Lock(Envelope(f), Exclusive)]
      + if c.Some? then [Lock(Case(c.value), Exclusive)] else []
  }

  // ---------------------------------------------------------------- transactions

  datatype Tx = Tx(request: Request, taken: nat, live: bool)
  type State = seq<Tx>

  predicate Wants(t: Tx) {
    t.live && t.taken < |Program(t.request)|
  }

  function Next(t: Tx): Lock
    requires Wants(t)
  {
    Program(t.request)[t.taken]
  }

  ghost predicate Holds(t: Tx, l: Lock) {
    t.live && exists k | 0 <= k < t.taken && k < |Program(t.request)| :: Program(t.request)[k] == l
  }

  predicate Conflict(a: Lock, b: Lock) {
    a.row == b.row && (a.mode == Exclusive || b.mode == Exclusive)
  }

  ghost predicate WaitsFor(s: State, i: nat, j: nat) {
    && i < |s| && j < |s| && i != j && Wants(s[i])
    && exists l :: Holds(s[j], l) && Conflict(Next(s[i]), l)
  }

  ghost predicate Blocked(s: State, i: nat) {
    exists j: nat :: WaitsFor(s, i, j)
  }

  ghost predicate Step(s: State, t: State) {
    || (exists r :: WellFormed(r) && t == s + [Tx(r, 0, true)])
    || (exists i: nat | i < |s| && Wants(s[i]) && !Blocked(s, i) :: t == s[i := s[i].(taken := s[i].taken + 1)])
    || (exists i: nat | i < |s| && s[i].live :: t == s[i := s[i].(live := false)])
  }

  ghost predicate Inv(s: State) {
    && (forall i | 0 <= i < |s| :: WellFormed(s[i].request) && s[i].taken <= |Program(s[i].request)|)
    && (forall i, j, a, b | 0 <= i < |s| && 0 <= j < |s| && i != j && Holds(s[i], a) && Holds(s[j], b) :: !Conflict(a, b))
  }

  ghost predicate Run(r: seq<State>) {
    && r != [] && r[0] == []
    && forall i | 0 <= i < |r| - 1 :: Step(r[i], r[i + 1])
  }

  lemma TakeKeeps(s: State, i: nat)
    requires Inv(s) && i < |s| && Wants(s[i]) && !Blocked(s, i)
    ensures Inv(s[i := s[i].(taken := s[i].taken + 1)])
  {
    var t := s[i := s[i].(taken := s[i].taken + 1)];
    forall l | Holds(t[i], l) ensures Holds(s[i], l) || l == Next(s[i]) {
      var k :| 0 <= k < t[i].taken && Program(t[i].request)[k] == l;
      assert k < s[i].taken || k == s[i].taken;
    }
    forall x, y, a, b | 0 <= x < |t| && 0 <= y < |t| && x != y && Holds(t[x], a) && Holds(t[y], b) ensures !Conflict(a, b) {
      if x == i && !Holds(s[i], a) { assert !WaitsFor(s, i, y); }
      if y == i && !Holds(s[i], b) { assert !WaitsFor(s, i, x); }
    }
  }

  lemma StartKeeps(s: State, r: Request)
    requires Inv(s) && WellFormed(r)
    ensures Inv(s + [Tx(r, 0, true)])
  {
    assert forall l :: !Holds(Tx(r, 0, true), l);
  }

  lemma EndKeeps(s: State, i: nat)
    requires Inv(s) && i < |s|
    ensures Inv(s[i := s[i].(live := false)])
  {
    assert forall l :: !Holds(s[i].(live := false), l);
  }

  lemma {:induction false} RunInv(r: seq<State>, x: nat)
    requires Run(r) && x < |r|
    ensures Inv(r[x])
  {
    if x > 0 {
      RunInv(r, x - 1);
      StepKeeps(r[x - 1], r[x]);
    }
  }

  lemma StepKeeps(s: State, t: State)
    requires Inv(s) && Step(s, t)
    ensures Inv(t)
  {
    hide Inv;
    hide WellFormed;
    if q :| WellFormed(q) && t == s + [Tx(q, 0, true)] {
      StartKeeps(s, q);
    } else if i: nat :| i < |s| && Wants(s[i]) && !Blocked(s, i) && t == s[i := s[i].(taken := s[i].taken + 1)] {
      TakeKeeps(s, i);
    } else {
      var i: nat :| i < |s| && s[i].live && t == s[i := s[i].(live := false)];
      EndKeeps(s, i);
    }
  }

  // ---------------------------------------------------------------- the documented order

  /** How late in the documented order a lock comes; the last two bands follow every envelope. */
  function Rank(l: Lock): (nat, nat) {
    match l.row
    case User(_) => (0, 0)
    case Envelope(id) => (1, id)
    case _ => if l.mode == Exclusive then (2, 0) else (3, 0)
  }

  predicate Below(a: (nat, nat), b: (nat, nat)) {
    a.0 < b.0 || (a.0 == b.0 && a.1 < b.1)
  }

  /** What every request's program has in common. */
  ghost predicate Ordered(p: seq<Lock>) {
    && (forall k | 0 <= k < |p| :: p[k].row.User? ==> p[k].mode == Shared)
    && (forall j, k | 0 <= j < k < |p| && p[j].row.Envelope? :: Below(Rank(p[j]), Rank(p[k])))
    && (forall j, k | 0 <= j < k < |p| && !p[j].row.User? && !p[j].row.Envelope? :: Rank(p[k]) == (3, 0))
    && (forall k | 0 <= k < |p| && Rank(p[k]) == (2, 0) :: k == |p| - 1)
  }

  lemma ProgramsAreOrdered(r: Request)
    requires WellFormed(r)
    ensures Ordered(Program(r))
  {
    match r {
      case Review(u, items) => ShapeIsOrdered(u, items, AllDestinationLocks(items));
      case Submission(u, to) => ShapeIsOrdered(u, [to], DestinationLocks(to));
      case _ =>
    }
  }

  lemma Slots(first: Lock, middle: seq<Lock>, rest: seq<Lock>)
    ensures var p := [first] + middle + rest;
            p[0] == first && (forall k | 1 <= k <= |middle| :: p[k] == middle[k - 1]) && forall k | |middle| < k < |p| :: p[k] in rest
  {
    var p := [first] + middle + rest;
    assert forall k | |middle| < k < |p| :: p[k] == rest[k - 1 - |middle|];
  }

  lemma ShapeIsOrdered(u: nat, items: seq<Destination>, rest: seq<Lock>)
    requires forall i, j | 0 <= i < j < |items| :: items[i].filing < items[j].filing
    requires forall l | l in rest :: l.mode == Shared && !l.row.User? && !l.row.Envelope?
    ensures Ordered([Lock(User(u), Shared)] + EnvelopeLocks(items) + rest)
  {
    hide Ordered;
    Slots(Lock(User(u), Shared), EnvelopeLocks(items), rest);
    hide EnvelopeLocks;
    BandsAreOrdered([Lock(User(u), Shared)] + EnvelopeLocks(items) + rest, |items|);
  }

  lemma BandsAreOrdered(p: seq<Lock>, n: nat)
    requires n < |p| && p[0].row.User? && p[0].mode == Shared
    requires forall k | 1 <= k <= n :: p[k].row.Envelope?
    requires forall j, k | 1 <= j < k <= n :: p[j].row.id < p[k].row.id
    requires forall k | n < k < |p| :: p[k].mode == Shared && !p[k].row.User? && !p[k].row.Envelope?
    ensures Ordered(p)
  {
  }

  /** Whoever is waited for, if it still needs a lock, needs one later in the order. */
  lemma WaitingClimbs(s: State, i: nat, j: nat)
    requires Inv(s) && WaitsFor(s, i, j) && Wants(s[j])
    ensures Below(Rank(Next(s[i])), Rank(Next(s[j])))
  {
    ProgramsAreOrdered(s[i].request);
    ProgramsAreOrdered(s[j].request);
    var l :| Holds(s[j], l) && Conflict(Next(s[i]), l);
    var p := Program(s[j].request);
    var k :| 0 <= k < s[j].taken && k < |p| && p[k] == l;
  }

  // ---------------------------------------------------------------- theorems

  /** A closed chain of transactions, each waiting for the next. */
  ghost predicate Cycle(s: State, c: seq<nat>) {
    && |c| >= 2 && c[0] == c[|c| - 1]
    && forall k | 0 <= k < |c| - 1 :: WaitsFor(s, c[k], c[k + 1])
  }

  lemma {:induction false} ChainClimbs(s: State, c: seq<nat>, k: nat)
    requires Inv(s) && |c| >= 2 && k < |c| && (forall x | 0 <= x < |c| - 1 :: WaitsFor(s, c[x], c[x + 1]))
    requires k < |c| && c[k] < |s| && Wants(s[c[k]]) && k > 0
    ensures c[0] < |s| && Wants(s[c[0]]) && Below(Rank(Next(s[c[0]])), Rank(Next(s[c[k]])))
  {
    assert WaitsFor(s, c[k - 1], c[k]);
    WaitingClimbs(s, c[k - 1], c[k]);
    if k > 1 {
      ChainClimbs(s, c, k - 1);
    }
  }

  /** No reachable state has transactions waiting for one another in a circle. */
  lemma NoWaitCycle(r: seq<State>, x: nat, c: seq<nat>)
    requires Run(r) && x < |r|
    ensures !Cycle(r[x], c)
  {
    if Cycle(r[x], c) {
      RunInv(r, x);
      assert WaitsFor(r[x], c[0], c[1]);
      ChainClimbs(r[x], c, |c| - 1);
    }
  }

  /** Is this transaction, among the first `n`, one whose next lock comes last in the order? */
  ghost predicate Topmost(s: State, n: nat, top: nat) {
    && n <= |s| && top < n && Wants(s[top])
    && forall i | 0 <= i < n && Wants(s[i]) :: !Below(Rank(Next(s[top])), Rank(Next(s[i])))
  }

  lemma StillTopmost(s: State, n: nat, top: nat) returns (next: nat)
    requires n < |s| && Topmost(s, n, top)
    ensures Topmost(s, n + 1, next)
  {
    hide Rank, Next;
    next := top;
    if Wants(s[n]) && Below(Rank(Next(s[top])), Rank(Next(s[n]))) {
      next := n;
    }
  }

  lemma {:induction false} LastInOrder(s: State, n: nat, some: nat) returns (top: nat)
    requires some < n <= |s| && Wants(s[some])
    ensures Topmost(s, n, top)
  {
    hide Topmost;
    if some < n - 1 {
      top := LastInOrder(s, n - 1, some);
      top := StillTopmost(s, n - 1, top);
    } else if i: nat :| i < n - 1 && Wants(s[i]) {
      top := LastInOrder(s, n - 1, i);
      top := StillTopmost(s, n - 1, top);
    } else {
      top := n - 1;
      OnlyOne(s, n);
    }
  }

  lemma OnlyOne(s: State, n: nat)
    requires 0 < n <= |s| && Wants(s[n - 1]) && forall i: nat | i < n - 1 :: !Wants(s[i])
    ensures Topmost(s, n, n - 1)
  {
    hide Rank, Next;
  }

  /** While any transaction is open, some open transaction can take its next lock or has them all. */
  lemma SomeoneProceeds(r: seq<State>, x: nat)
    requires Run(r) && x < |r| && exists i | 0 <= i < |r[x]| :: r[x][i].live
    ensures exists i: nat | i < |r[x]| && r[x][i].live :: !Wants(r[x][i]) || !Blocked(r[x], i)
  {
    var s := r[x];
    RunInv(r, x);
    if forall i | 0 <= i < |s| && s[i].live :: Wants(s[i]) {
      var some: nat :| some < |s| && s[some].live;
      var top := LastInOrder(s, |s|, some);
      if Blocked(s, top) {
        var j: nat :| WaitsFor(s, top, j);
        WaitingClimbs(s, top, j);
        assert false;
      }
    }
  }

  // ---------------------------------------------------------------- what the locks protect

  /** The filings a request works on. */
  function FilingsOf(r: Request): set<nat> {
    match r
    case Upload(_, f) => {f}
    case Submission(_, to) => {to.filing}
    case Review(_, items) => set d | d in items :: d.filing
    case DateOrder(_, f, _) => {f}
  }

  /** The transaction has everything it asked for and may read and write. */
  predicate Inside(t: Tx) {
    t.live && t.taken == |Program(t.request)|
  }

  lemma FilingLocked(r: Request, f: nat)
    requires f in FilingsOf(r)
    ensures Lock(Envelope(f), Exclusive) in Program(r)
  {
    match r
    case Review(u, items) =>
      var d :| d in items && d.filing == f;
      var k :| 0 <= k < |items| && items[k] == d;
      assert Program(r)[1 + k] == EnvelopeLocks(items)[k];
    case Submission(u, to) => assert Program(r)[1] == EnvelopeLocks([to])[0];
    case Upload(u, g) => assert Program(r)[1] == Lock(Envelope(g), Exclusive);
    case DateOrder(u, g, c) => assert Program(r)[1] == Lock(Envelope(g), Exclusive);
  }

  lemma InsideHolds(t: Tx, l: Lock)
    requires Inside(t) && l in Program(t.request)
    ensures Holds(t, l)
  {
  }

  /** No two transactions are ever inside at once for the same filing. */
  lemma OneInsidePerFiling(r: seq<State>, x: nat, i: nat, j: nat, f: nat)
    requires Run(r) && x < |r| && i < |r[x]| && j < |r[x]| && Inside(r[x][i]) && Inside(r[x][j])
    requires f in FilingsOf(r[x][i].request) && f in FilingsOf(r[x][j].request)
    ensures i == j
  {
    RunInv(r, x);
    hide Run;
    FilingLocked(r[x][i].request, f);
    FilingLocked(r[x][j].request, f);
    hide Program;
    var l := Lock(Envelope(f), Exclusive);
    assert Conflict(l, l);
    InsideHolds(r[x][i], l);
    InsideHolds(r[x][j], l);
  }

  lemma {:induction false} DestinationsListed(items: seq<Destination>, k: nat)
    requires k < |items|
    ensures forall l | l in DestinationLocks(items[k]) :: l in AllDestinationLocks(items)
  {
    if k > 0 { DestinationsListed(items[1..], k - 1); }
  }

  /** The cases a submission or a review reads. */
  ghost predicate ReadsCase(r: Request, c: nat) {
    || (r.Submission? && r.to.caseId == Some(c))
    || (r.Review? && exists k | 0 <= k < |r.items| :: r.items[k].caseId == Some(c))
  }

  lemma CaseLocked(r: Request, c: nat)
    requires ReadsCase(r, c)
    ensures Lock(Case(c), Shared) in Program(r)
  {
    if r.Review? {
      var k :| 0 <= k < |r.items| && r.items[k].caseId == Some(c);
      DestinationsListed(r.items, k);
      assert DestinationLocks(r.items[k])[2] == Lock(Case(c), Shared);
    } else {
      assert DestinationLocks(r.to)[2] == Lock(Case(c), Shared);
    }
  }

  /** While an order changes a case's date, no submission into that case and no review of its filings is inside. */
  lemma OrdersExcludeReaders(r: seq<State>, x: nat, i: nat, j: nat, c: nat)
    requires Run(r) && x < |r| && i < |r[x]| && j < |r[x]| && Inside(r[x][i]) && Inside(r[x][j])
    requires r[x][i].request.DateOrder? && r[x][i].request.caseId == Some(c)
    ensures !ReadsCase(r[x][j].request, c)
  {
    RunInv(r, x);
    hide Run;
    var order := r[x][i].request;
    assert Program(order)[2] == Lock(Case(c), Exclusive);
    assert Conflict(Lock(Case(c), Exclusive), Lock(Case(c), Shared));
    if ReadsCase(r[x][j].request, c) {
      CaseLocked(r[x][j].request, c);
      hide Program;
      InsideHolds(r[x][i], Lock(Case(c), Exclusive));
      InsideHolds(r[x][j], Lock(Case(c), Shared));
    }
  }
}
