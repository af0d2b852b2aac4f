/** The subscription ledger, the operations that append to it and cancel in it, and the
    three queries that read it: the subscription page, the quota plan, the CI entitlement. */
module Subscriptions {
  import opened Sequences

  datatype Status = Inactive | Active | Canceled

  datatype Row = Row(user: string, planCode: string, status: Status, createdAt: nat, updatedAt: nat)

  /** Rows in the order they were created. */
  type Ledger = seq<Row>

  ghost predicate ValidLedger(rows: Ledger, clock: nat) {
    && (forall i, j :: 0 <= i < j < |rows| ==> rows[i].createdAt < rows[j].createdAt)
    && (forall i :: 0 <= i < |rows| ==> rows[i].createdAt < clock && rows[i].updatedAt < clock)
  }

  // ----- The three readers -----

  /** The user's most recently created row, which the subscription page and the CI
      entitlement query read. */
  function Latest(rows: Ledger, user: string): Option<Row> {
    if rows == [] then None
    else if rows[|rows| - 1].user == user then Some(rows[|rows| - 1])
    else Latest(rows[..|rows| - 1], user)
  }

  predicate ReadsActive(rows: Ledger, user: string) {
    Latest(rows, user).Some? && Latest(rows, user).value.status == Active
  }

  predicate Newer(a: Row, b: Row) {
    a.updatedAt > b.updatedAt || (a.updatedAt == b.updatedAt && a.createdAt > b.createdAt)
  }

  /** The user's active row updated last, which the quota check reads. */
  function BestActive(rows: Ledger, user: string): Option<Row> {
    if rows == [] then None
    else
      var best, last := BestActive(rows[..|rows| - 1], user), rows[|rows| - 1];
      if last.user == user && last.status == Active && (best.None? || Newer(last, best.value)) then Some(last) else best
  }

  datatype Plan = Free | Pro

  function ResolvePlan(rows: Ledger, user: string): Plan {
    var best := BestActive(rows, user);
    if best.Some? && best.value.planCode in {"pro", "pro_monthly"} then Pro else Free
  }

  // ----- The operations -----

  function FreeRow(user: string, now: nat): Row {
    Row(user, "free", Active, now, now)
  }

  function ProRow(user: string, now: nat): Row {
    Row(user, "pro_monthly", Active, now, now)
  }

  function Ensured(rows: Ledger, user: string, now: nat): Ledger {
    if Latest(rows, user).Some? then rows else rows + [FreeRow(user, now)]
  }

  function CancelRow(r: Row, now: nat): Row {
    r.(status := Canceled, updatedAt := now)
  }

  function CancelActive(rows: Ledger, user: string, now: nat): (r: Ledger)
    ensures |r| == |rows| && forall i :: 0 <= i < |rows| ==>
              r[i] == if rows[i].user == user && rows[i].status == Active then CancelRow(rows[i], now) else rows[i]
  {
    seq(|rows|, i requires 0 <= i < |rows| =>
      if rows[i].user == user && rows[i].status == Active then CancelRow(rows[i], now) else rows[i])
  }

  function Activated(rows: Ledger, user: string, now: nat): Ledger {
    CancelActive(rows, user, now) + [ProRow(user, now)]
  }

  function CancelLatest(rows: Ledger, user: string, now: nat): (r: Ledger)
    ensures |r| == |rows|
  {
    if rows == [] then rows
    else if rows[|rows| - 1].user == user then rows[..|rows| - 1] + [CancelRow(rows[|rows| - 1], now)]
    else CancelLatest(rows[..|rows| - 1], user, now) + [rows[|rows| - 1]]
  }

  function Cancelled(rows: Ledger, user: string, now: nat): Ledger {
    if Latest(rows, user).Some? then CancelLatest(rows, user, now) else Ensured(rows, user, now)
  }

  /** Only the user's last row changes, and only to canceled. */
  predicate CancelsOnly(before: Ledger, after: Ledger, user: string, k: nat, current: Row) {
    && k < |before| && before[k].user == user && (forall i :: k < i < |before| ==> before[i].user != user)
    && after == before[k := current] && current.status == Canceled
    && current == before[k].(status := current.status, updatedAt := current.updatedAt)
  }

  class SubscriptionsRepository {
    var rows: Ledger
    var clock: nat

    ghost predicate Valid()
      reads this
    {
      ValidLedger(rows, clock) && forall u :: Sound(rows, u)
    }

    constructor ()
      ensures Valid() && rows == []
    {
      rows, clock := [], 0;
    }

    method GetCurrentByUserId(user: string) returns (current: Option<Row>)
      requires Valid()
      ensures current == Latest(rows, user)
      ensures current.Some? ==> current.value in rows && current.value.user == user
                                && forall r :: r in rows && r.user == user ==> r.createdAt <= current.value.createdAt
      ensures current.None? ==> forall r :: r in rows ==> r.user != user
    {
      LatestIsGreatest(rows, clock, user);
      current := Latest(rows, user);
    }

    method EnsureDefaultFreeSubscription(user: string) returns (current: Row)
      requires Valid()
      modifies this
      ensures Valid() && rows == Ensured(old(rows), user, old(clock)) && Latest(rows, user) == Some(current)
      ensures if exists r :: r in old(rows) && r.user == user then rows == old(rows)
              else rows == old(rows) + [current] && current.user == user && current.planCode == "free" && current.status == Active
    {
      ghost var before := rows;
      EnsuredKeepsValid(rows, clock, user);
      var latest := GetCurrentByUserId(user);
      if latest.Some? {
        clock := clock + 1;
        return latest.value;
      }
      current := FreeRow(user, clock);
      rows := rows + [current];
      clock := clock + 1;
      assert rows[..|rows| - 1] == before;
    }

    /** One transaction: cancel what is active, insert the paid row. */
    method ActivateMonthlyPlan(user: string) returns (current: Row)
      requires Valid()
      modifies this
      ensures Valid() && rows == Activated(old(rows), user, old(clock)) && Latest(rows, user) == Some(current)
      ensures ReadsActive(rows, user) && ResolvePlan(rows, user) == Pro
      ensures |rows| == |old(rows)| + 1 && rows[|old(rows)|] == current
      ensures current.user == user && current.planCode == "pro_monthly" && current.status == Active
      ensures forall i :: 0 <= i < |old(rows)| ==>
                var r, r' := old(rows)[i], rows[i];
                && r' == r.(status := r'.status, updatedAt := r'.updatedAt)
                && (if r.user == user && r.status == Active then r'.status == Canceled else r' == r)
    {
      ghost var before, now := rows, clock;
      ActivatedKeepsValid(rows, clock, user);
      current := ProRow(user, clock);
      rows := CancelActive(rows, user, clock) + [current];
      clock := clock + 1;
      assert rows == Activated(before, user, now);
      ReadersAgree(rows, clock, user);
    }

    method CancelCurrent(user: string) returns (current: Row)
      requires Valid()
      modifies this
      ensures Valid() && rows == Cancelled(old(rows), user, old(clock)) && Latest(rows, user) == Some(current)
      ensures ReadsActive(rows, user) <==> old(Latest(rows, user)).None?
      ensures old(Latest(rows, user)).Some? ==> exists k: nat :: CancelsOnly(old(rows), rows, user, k, current)
      ensures old(Latest(rows, user)).None? ==> rows == old(rows) + [current] && current.planCode == "free"
    {
      var latest := GetCurrentByUserId(user);
      if latest.None? {
        current := EnsureDefaultFreeSubscription(user);
        return;
      }
      CancelledKeepsValid(rows, clock, user);
      ghost var before := rows;
      ghost var k := LatestAt(rows, user);
      CancelLatestAt(rows, user, clock, k);
      rows := CancelLatest(rows, user, clock);
      current := CancelRow(latest.value, clock);
      clock := clock + 1;
      assert CancelsOnly(before, rows, user, k, current);
    }
  }

  // ----- The invariant -----

  /** A user's active row, if any, is the user's latest row. */
  ghost predicate Sound(rows: Ledger, user: string) {
    forall i, j :: 0 <= i < j < |rows| && rows[i].user == user && rows[j].user == user ==> rows[i].status != Active
  }

  lemma {:induction false} LatestAt(rows: Ledger, user: string) returns (k: nat)
    requires Latest(rows, user).Some?
    ensures k < |rows| && rows[k].user == user && Latest(rows, user) == Some(rows[k])
    ensures forall i :: k < i < |rows| ==> rows[i].user != user
  {
    if rows[|rows| - 1].user == user {
      k := |rows| - 1;
    } else {
      k := LatestAt(rows[..|rows| - 1], user);
    }
  }

  lemma {:induction false} LatestNone(rows: Ledger, user: string)
    requires Latest(rows, user).None?
    ensures forall i :: 0 <= i < |rows| ==> rows[i].user != user
  {
    if rows != [] {
      LatestNone(rows[..|rows| - 1], user);
    }
  }

  lemma LatestIsGreatest(rows: Ledger, clock: nat, user: string)
    requires ValidLedger(rows, clock)
    ensures Latest(rows, user).Some? ==>
              var r := Latest(rows, user).value;
              r in rows && r.user == user && forall x :: x in rows && x.user == user ==> x.createdAt <= r.createdAt
    ensures Latest(rows, user).None? ==> forall x :: x in rows ==> x.user != user
  {
    if Latest(rows, user).Some? {
      var k := LatestAt(rows, user);
      forall x | x in rows && x.user == user ensures x.createdAt <= rows[k].createdAt {
        var i :| 0 <= i < |rows| && rows[i] == x;
      }
    } else {
      LatestNone(rows, user);
    }
  }

  lemma {:induction false} CancelLatestAt(rows: Ledger, user: string, now: nat, k: nat)
    requires k < |rows| && rows[k].user == user && forall i :: k < i < |rows| ==> rows[i].user != user
    ensures CancelLatest(rows, user, now) == rows[k := CancelRow(rows[k], now)]
  {
    if k < |rows| - 1 {
      CancelLatestAt(rows[..|rows| - 1], user, now, k);
    }
  }

  lemma {:induction false} LatestIs(rows: Ledger, user: string, k: nat)
    requires k < |rows| && rows[k].user == user && forall i :: k < i < |rows| ==> rows[i].user != user
    ensures Latest(rows, user) == Some(rows[k])
  {
    if k < |rows| - 1 {
      LatestIs(rows[..|rows| - 1], user, k);
    }
  }

  lemma EnsuredKeepsValid(rows: Ledger, clock: nat, user: string)
    requires ValidLedger(rows, clock) && forall u :: Sound(rows, u)
    ensures ValidLedger(Ensured(rows, user, clock), clock + 1) && forall u :: Sound(Ensured(rows, user, clock), u)
  {
    if Latest(rows, user).None? {
      LatestNone(rows, user);
    }
    forall u ensures Sound(Ensured(rows, user, clock), u) {
      assert Sound(rows, u);
    }
  }

  lemma ActivatedKeepsValid(rows: Ledger, clock: nat, user: string)
    requires ValidLedger(rows, clock) && forall u :: Sound(rows, u)
    ensures ValidLedger(Activated(rows, user, clock), clock + 1) && forall u :: Sound(Activated(rows, user, clock), u)
  {
    forall u ensures Sound(Activated(rows, user, clock), u) {
      assert Sound(rows, u);
    }
  }

  lemma CancelledKeepsValid(rows: Ledger, clock: nat, user: string)
    requires ValidLedger(rows, clock) && (forall u :: Sound(rows, u)) && Latest(rows, user).Some?
    ensures var rows' := CancelLatest(rows, user, clock);
            && ValidLedger(rows', clock + 1) && (forall u :: Sound(rows', u))
            && Latest(rows', user) == Some(CancelRow(Latest(rows, user).value, clock))
  {
    var k := LatestAt(rows, user);
    CancelLatestAt(rows, user, clock, k);
    LatestIs(CancelLatest(rows, user, clock), user, k);
    forall u ensures Sound(CancelLatest(rows, user, clock), u) {
      assert Sound(rows, u);
    }
  }

  // ----- Agreement of the readers -----

  lemma {:induction false} BestActiveIsActive(rows: Ledger, user: string)
    ensures BestActive(rows, user).Some? ==>
              exists i :: 0 <= i < |rows| && rows[i] == BestActive(rows, user).value && rows[i].user == user && rows[i].status == Active
    ensures BestActive(rows, user).None? ==> forall i :: 0 <= i < |rows| && rows[i].user == user ==> rows[i].status != Active
  {
    if rows != [] {
      BestActiveIsActive(rows[..|rows| - 1], user);
    }
  }

  /** Of several active rows the quota check would read the one updated last, then created last. */
  lemma {:induction false} BestIsUpdatedLast(rows: Ledger, user: string, r: Row)
    requires r in rows && r.user == user && r.status == Active
    ensures var best := BestActive(rows, user);
            best.Some? && (r.updatedAt < best.value.updatedAt
                           || (r.updatedAt == best.value.updatedAt && r.createdAt <= best.value.createdAt))
  {
    var init, last := rows[..|rows| - 1], rows[|rows| - 1];
    InitAndLast(rows);
    if r in init {
      BestIsUpdatedLast(init, user, r);
    }
  }

  /** The user has at most one active row, which is the latest; the subscription page and
      the entitlement query see it active exactly when the quota check sees it at all, and
      the quota check resolves pro exactly when the page shows an active paid row. */
  lemma ReadersAgree(rows: Ledger, clock: nat, user: string)
    requires ValidLedger(rows, clock) && Sound(rows, user)
    ensures forall i, j :: 0 <= i < j < |rows| && rows[i].user == user && rows[j].user == user ==>
              !(rows[i].status == Active && rows[j].status == Active)
    ensures ReadsActive(rows, user) <==> BestActive(rows, user).Some?
    ensures ReadsActive(rows, user) ==> BestActive(rows, user) == Latest(rows, user)
    ensures ResolvePlan(rows, user) == Pro <==>
              ReadsActive(rows, user) && Latest(rows, user).value.planCode in {"pro", "pro_monthly"}
  {
    BestActiveIsActive(rows, user);
    if Latest(rows, user).None? {
      LatestNone(rows, user);
    } else {
      var k := LatestAt(rows, user);
      if BestActive(rows, user).Some? {
        var i :| 0 <= i < |rows| && rows[i] == BestActive(rows, user).value && rows[i].user == user && rows[i].status == Active;
        assert i == k;
      }
    }
  }

  // ----- Whole runs -----

  datatype Operation = Ensure(user: string) | Activate(user: string) | Cancel(user: string)

  function Apply(rows: Ledger, now: nat, op: Operation): Ledger {
    match op
    case Ensure(u) => Ensured(rows, u, now)
    case Activate(u) => Activated(rows, u, now)
    case Cancel(u) => Cancelled(rows, u, now)
  }

  function Run(ops: seq<Operation>): Ledger {
    if ops == [] then [] else Apply(Run(ops[..|ops| - 1]), |ops| - 1, ops[|ops| - 1])
  }

  /** After any run of the operations, for every user, the three readers agree and the only
      active row is the latest. */
  lemma {:induction false} AgreeAfterAnyRun(ops: seq<Operation>, user: string)
    ensures ValidLedger(Run(ops), |ops|) && forall u :: Sound(Run(ops), u)
    ensures ReadsActive(Run(ops), user) <==> BestActive(Run(ops), user).Some?
    ensures ResolvePlan(Run(ops), user) == Pro <==>
              ReadsActive(Run(ops), user) && Latest(Run(ops), user).value.planCode in {"pro", "pro_monthly"}
  {
    if ops != [] {
      var before, n, op := Run(ops[..|ops| - 1]), |ops| - 1, ops[|ops| - 1];
      AgreeAfterAnyRun(ops[..n], user);
      match op {
        case Ensure(u) => EnsuredKeepsValid(before, n, u);
        case Activate(u) => ActivatedKeepsValid(before, n, u);
        case Cancel(u) =>
          if Latest(before, u).Some? {
            CancelledKeepsValid(before, n, u);
          } else {
            EnsuredKeepsValid(before, n, u);
          }
      }
    }
    assert Sound(Run(ops), user);
    ReadersAgree(Run(ops), |ops|, user);
  }

  // ----- Where a user stands after a run -----

  datatype Standing = NoRow | OnFree | OnPro | Off

  /** What one operation does to a user's standing; other users' operations do nothing. */
  function Moved(s: Standing, op: Operation, user: string): Standing {
    if op.user != user then s
    else if op.Activate? then OnPro
    else if s == NoRow then OnFree
    else if op.Cancel? then Off
    else s
  }

  function StandingAfter(ops: seq<Operation>, user: string): Standing {
    if ops == [] then NoRow else Moved(StandingAfter(ops[..|ops| - 1], user), ops[|ops| - 1], user)
  }

  /** The ledger shows the standing by the user's latest row. */
  predicate Shows(rows: Ledger, user: string, s: Standing) {
    match Latest(rows, user)
    case None => s == NoRow
    case Some(r) => if r.status == Active && r.planCode == "free" then s == OnFree
                    else if r.status == Active && r.planCode == "pro_monthly" then s == OnPro
                    else r.status == Canceled && s == Off
  }

  lemma {:induction false} NoLatest(rows: Ledger, user: string)
    requires forall i :: 0 <= i < |rows| ==> rows[i].user != user
    ensures Latest(rows, user) == None
  {
    if rows != [] {
      NoLatest(rows[..|rows| - 1], user);
    }
  }

  lemma OthersLatest(rows: Ledger, now: nat, op: Operation, user: string)
    requires op.user != user
    ensures Latest(Apply(rows, now, op), user) == Latest(rows, user)
  {
    var rows' := Apply(rows, now, op);
    if Latest(rows, op.user).Some? {
      var k := LatestAt(rows, op.user);
      CancelLatestAt(rows, op.user, now, k);
    }
    if Latest(rows, user).Some? {
      var k := LatestAt(rows, user);
      LatestIs(rows', user, k);
    } else {
      LatestNone(rows, user);
      NoLatest(rows', user);
    }
  }

  lemma OwnLatest(rows: Ledger, now: nat, op: Operation)
    ensures var before, latest := Latest(rows, op.user), Latest(Apply(rows, now, op), op.user);
            latest == if op.Activate? then Some(ProRow(op.user, now))
                      else if before.None? then Some(FreeRow(op.user, now))
                      else if op.Cancel? then Some(CancelRow(before.value, now))
                      else before
  {
    var rows' := Apply(rows, now, op);
    if op.Cancel? && Latest(rows, op.user).Some? {
      var k := LatestAt(rows, op.user);
      CancelLatestAt(rows, op.user, now, k);
      LatestIs(rows', op.user, k);
    } else if rows' != rows {
      LatestIs(rows', op.user, |rows|);
    }
  }

  /** After any run a user is on the paid plan iff that is where the user's own operations
      led, and the quota resolver, the page and the entitlement query all say so. */
  lemma {:induction false} StandingIsShown(ops: seq<Operation>, user: string)
    ensures Shows(Run(ops), user, StandingAfter(ops, user))
    ensures ResolvePlan(Run(ops), user) == Pro <==> StandingAfter(ops, user) == OnPro
    ensures ReadsActive(Run(ops), user) <==> StandingAfter(ops, user) in {OnFree, OnPro}
  {
    AgreeAfterAnyRun(ops, user);
    if ops != [] {
      var n, op := |ops| - 1, ops[|ops| - 1];
      StandingIsShown(ops[..n], user);
      if op.user == user {
        OwnLatest(Run(ops[..n]), n, op);
      } else {
        OthersLatest(Run(ops[..n]), n, op, user);
      }
    }
  }
}
