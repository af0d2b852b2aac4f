/**
 The part of GitHub Actions a generated workflow relies on: jobs with `needs` and an
 `if`, and the small-step semantics of one run.  A job whose condition calls no status
 function implicitly also requires `success()`.
 */
module JobGraph {
  import opened Sequences

  datatype Outcome = Success | Failure | Cancelled | Skipped

  datatype Guard =
    | Unconditional
    | Always
    | NotCancelled
    | EventAllowed
    | BranchIs(name: string)
    | ResultIs(job: string, outcome: Outcome)
    | And(left: Guard, right: Guard)
    | Or(left: Guard, right: Guard)

  datatype Job = Job(needs: seq<string>, guard: Guard)

  datatype Entry = Entry(id: string, job: Job)

  type Table = seq<Entry>

  /** What one run sees from outside: the originating branch, and whether the trigger was
      a dispatch or a successful upstream stage. */
  datatype Context = Context(branch: string, eventAllowed: bool)

  type Results = map<string, Outcome>

  datatype State = State(cancelled: bool, results: Results)

  const Initial: State := State(false, map[])

  function Ids(table: Table): (ids: seq<string>)
    ensures |ids| == |table| && forall i :: 0 <= i < |table| ==> ids[i] == table[i].id
  {
    Map((e: Entry) => e.id, table)
  }

  /** `a && b && …`, as `conditions.join(' && ')` writes it. */
  function Conjunction(guards: seq<Guard>): Guard {
    if guards == [] then Unconditional
    else And(guards[0], Conjunction(guards[1..]))
  }

  predicate CallsStatusFunction(g: Guard) {
    match g
    case Always => true
    case NotCancelled => true
    case And(l, r) => CallsStatusFunction(l) || CallsStatusFunction(r)
    case Or(l, r) => CallsStatusFunction(l) || CallsStatusFunction(r)
    case _ => false
  }

  predicate Holds(g: Guard, ctx: Context, needs: seq<string>, results: Results, cancelled: bool) {
    match g
    case Unconditional => true
    case Always => true
    case NotCancelled => !cancelled
    case EventAllowed => ctx.eventAllowed
    case BranchIs(name) => ctx.branch == name
    case ResultIs(job, outcome) => job in needs && job in results && results[job] == outcome
    case And(l, r) => Holds(l, ctx, needs, results, cancelled) && Holds(r, ctx, needs, results, cancelled)
    case Or(l, r) => Holds(l, ctx, needs, results, cancelled) || Holds(r, ctx, needs, results, cancelled)
  }

  predicate NeedsDone(job: Job, results: Results) {
    forall n :: n in job.needs ==> n in results
  }

  predicate NeedsSucceeded(job: Job, results: Results) {
    forall n :: n in job.needs ==> n in results && results[n] == Success
  }

  predicate Enabled(job: Job, ctx: Context, results: Results, cancelled: bool) {
    && Holds(job.guard, ctx, job.needs, results, cancelled)
    && (CallsStatusFunction(job.guard) || NeedsSucceeded(job, results))
  }

  /** One step of a run: somebody cancels it, or a job whose needs are all settled is
      settled itself.  It is skipped exactly when it is not enabled. */
  ghost predicate Step(table: Table, ctx: Context, s: State, s': State) {
    || s' == s.(cancelled := true)
    || exists e, o :: Settles(table, ctx, s, e, o, s')
  }

  ghost predicate Settles(table: Table, ctx: Context, s: State, e: Entry, o: Outcome, s': State) {
    && e in table && e.id !in s.results && NeedsDone(e.job, s.results)
    && (o == Skipped <==> !Enabled(e.job, ctx, s.results, s.cancelled))
    && s' == s.(results := s.results[e.id := o])
  }

  ghost predicate Run(table: Table, ctx: Context, trace: seq<State>) {
    && |trace| > 0 && trace[0] == Initial
    && forall k :: 0 < k < |trace| ==> Step(table, ctx, trace[k - 1], trace[k])
  }

  ghost predicate Reachable(table: Table, ctx: Context, s: State) {
    exists trace :: Run(table, ctx, trace) && trace[|trace| - 1] == s
  }

  lemma {:induction false} ReachableStep(table: Table, ctx: Context, s: State, s': State)
    requires Reachable(table, ctx, s) && Step(table, ctx, s, s')
    ensures Reachable(table, ctx, s')
  {
    var trace :| Run(table, ctx, trace) && trace[|trace| - 1] == s;
    assert Run(table, ctx, trace + [s']);
  }

  lemma InitiallyReachable(table: Table, ctx: Context)
    ensures Reachable(table, ctx, Initial)
  {
    assert Run(table, ctx, [Initial]);
  }

  /** Every `needs` entry names a job defined earlier in the table, and no id is defined
      twice; in particular the graph is acyclic. */
  predicate WellFormed(table: Table) {
    && NoRepeats(Ids(table))
    && forall i, n :: 0 <= i < |table| && n in table[i].job.needs ==> n in Ids(table[..i])
  }

  /** The outcome of a settled job is the one its needs and condition called for. */
  ghost predicate Justified(job: Job, ctx: Context, s: State, o: Outcome) {
    && NeedsDone(job, s.results)
    && exists c: bool :: (c ==> s.cancelled) && (o == Skipped <==> !Enabled(job, ctx, s.results, c))
  }

  ghost predicate Consistent(table: Table, ctx: Context, s: State) {
    && (forall id :: id in s.results ==> id in Ids(table))
    && forall e :: e in table && e.id in s.results ==> Justified(e.job, ctx, s, s.results[e.id])
  }

  lemma {:induction g} HoldsIsStable(g: Guard, ctx: Context, needs: seq<string>, r: Results, r': Results, c: bool)
    requires forall n :: n in needs ==> n in r && n in r' && r[n] == r'[n]
    ensures Holds(g, ctx, needs, r, c) == Holds(g, ctx, needs, r', c)
  {
  }

  lemma JustifiedIsStable(job: Job, ctx: Context, s: State, s': State, o: Outcome)
    requires Justified(job, ctx, s, o)
    requires s.cancelled ==> s'.cancelled
    requires forall id :: id in s.results ==> id in s'.results && s'.results[id] == s.results[id]
    ensures Justified(job, ctx, s', o)
  {
    var c: bool :| (c ==> s.cancelled) && (o == Skipped <==> !Enabled(job, ctx, s.results, c));
    HoldsIsStable(job.guard, ctx, job.needs, s.results, s'.results, c);
    assert Enabled(job, ctx, s.results, c) == Enabled(job, ctx, s'.results, c);
  }

  lemma SameId(table: Table, a: Entry, b: Entry)
    requires NoRepeats(Ids(table)) && a in table && b in table && a.id == b.id
    ensures a == b
  {
  }

  lemma StepKeepsConsistent(table: Table, ctx: Context, s: State, s': State)
    requires NoRepeats(Ids(table)) && Consistent(table, ctx, s) && Step(table, ctx, s, s')
    ensures Consistent(table, ctx, s')
  {
    if s' == s.(cancelled := true) {
      forall e | e in table && e.id in s'.results ensures Justified(e.job, ctx, s', s'.results[e.id]) {
        JustifiedIsStable(e.job, ctx, s, s', s.results[e.id]);
      }
    } else {
      var f, o :| Settles(table, ctx, s, f, o, s');
      var i :| 0 <= i < |table| && table[i] == f;
      assert Ids(table)[i] == f.id;
      assert Justified(f.job, ctx, s, o);
      forall e | e in table && e.id in s'.results ensures Justified(e.job, ctx, s', s'.results[e.id]) {
        if e.id == f.id {
          SameId(table, e, f);
          JustifiedIsStable(e.job, ctx, s, s', o);
        } else {
          JustifiedIsStable(e.job, ctx, s, s', s.results[e.id]);
        }
      }
    }
  }

  lemma {:induction false} RunIsConsistent(table: Table, ctx: Context, trace: seq<State>)
    requires NoRepeats(Ids(table)) && Run(table, ctx, trace)
    ensures Consistent(table, ctx, trace[|trace| - 1])
  {
    if |trace| > 1 {
      var init := trace[..|trace| - 1];
      assert Run(table, ctx, init);
      RunIsConsistent(table, ctx, init);
      StepKeepsConsistent(table, ctx, init[|init| - 1], trace[|trace| - 1]);
    }
  }

  /** In every reachable state every settled job has the outcome its settled needs, its
      condition and the branch call for. */
  lemma ReachableIsConsistent(table: Table, ctx: Context, s: State)
    requires NoRepeats(Ids(table)) && Reachable(table, ctx, s)
    ensures Consistent(table, ctx, s)
  {
    var trace :| Run(table, ctx, trace) && trace[|trace| - 1] == s;
    RunIsConsistent(table, ctx, trace);
  }

  /** The two readings of a settled job whose condition calls no status function. */
  lemma SettledPlainJob(table: Table, ctx: Context, s: State, e: Entry)
    requires NoRepeats(Ids(table)) && Reachable(table, ctx, s)
    requires e in table && e.id in s.results && !CallsStatusFunction(e.job.guard)
    ensures NeedsDone(e.job, s.results)
    ensures s.results[e.id] != Skipped <==>
            NeedsSucceeded(e.job, s.results) && Holds(e.job.guard, ctx, e.job.needs, s.results, false)
  {
    ReachableIsConsistent(table, ctx, s);
    var c: bool :| (c ==> s.cancelled) && (s.results[e.id] == Skipped <==> !Enabled(e.job, ctx, s.results, c));
    PlainGuardIgnoresCancellation(e.job.guard, ctx, e.job.needs, s.results, c);
  }

  lemma {:induction g} PlainGuardIgnoresCancellation(g: Guard, ctx: Context, needs: seq<string>, r: Results, c: bool)
    requires !CallsStatusFunction(g)
    ensures Holds(g, ctx, needs, r, c) == Holds(g, ctx, needs, r, false)
  {
  }

  lemma {:induction false} ConjunctionHolds(guards: seq<Guard>, ctx: Context, needs: seq<string>, r: Results, c: bool)
    ensures Holds(Conjunction(guards), ctx, needs, r, c)
       <==> forall i :: 0 <= i < |guards| ==> Holds(guards[i], ctx, needs, r, c)
  {
    if guards != [] {
      var head, tail := guards[0], guards[1..];
      ConjunctionHolds(tail, ctx, needs, r, c);
      assert forall i :: 0 <= i < |tail| ==> tail[i] == guards[i + 1];
      assert forall i :: 0 < i < |guards| ==> guards[i] == tail[i - 1];
    }
  }

  lemma {:induction false} ConjunctionStatus(guards: seq<Guard>)
    ensures CallsStatusFunction(Conjunction(guards))
       <==> exists i :: 0 <= i < |guards| && CallsStatusFunction(guards[i])
  {
    if guards != [] {
      var tail := guards[1..];
      ConjunctionStatus(tail);
      assert forall i :: 0 <= i < |tail| ==> tail[i] == guards[i + 1];
      assert forall i :: 0 < i < |guards| ==> guards[i] == tail[i - 1];
    }
  }

  /** A well-formed table never deadlocks: while some job is unsettled, some job can settle. */
  lemma {:induction false} SomeJobCanSettle(table: Table, ctx: Context, s: State, i: nat)
    requires WellFormed(table) && Reachable(table, ctx, s)
    requires i < |table| && table[i].id !in s.results
    ensures exists e, o, s' :: Settles(table, ctx, s, e, o, s')
  {
    var e := table[i];
    if n :| n in e.job.needs && n !in s.results {
      var k :| 0 <= k < |table[..i]| && Ids(table[..i])[k] == n;
      SomeJobCanSettle(table, ctx, s, k);
    } else {
      var o := if Enabled(e.job, ctx, s.results, s.cancelled) then Success else Skipped;
      assert Settles(table, ctx, s, e, o, s.(results := s.results[e.id := o]));
    }
  }

  /** Every job is settled, no job failed, and nobody cancelled. */
  ghost predicate Green(table: Table, s: State) {
    !s.cancelled && forall e :: e in table ==> e.id in s.results && s.results[e.id] in {Success, Skipped}
  }

  /** Exactly the first `k` jobs are settled, and none failed. */
  ghost predicate GreenThrough(table: Table, s: State, k: nat) {
    k <= |table| && Green(table[..k], s) && forall id :: id in s.results <==> id in Ids(table[..k])
  }

  lemma NextId(table: Table, k: nat)
    requires k < |table| && NoRepeats(Ids(table))
    ensures table[..k + 1] == table[..k] + [table[k]]
    ensures Ids(table[..k + 1]) == Ids(table[..k]) + [table[k].id]
    ensures table[k].id !in Ids(table[..k])
  {
    assert Ids(table[..k]) == Ids(table)[..k];
  }

  lemma SettleNext(table: Table, ctx: Context, s: State, k: nat) returns (s': State)
    requires WellFormed(table) && k < |table| && Reachable(table, ctx, s) && GreenThrough(table, s, k)
    ensures Reachable(table, ctx, s') && GreenThrough(table, s', k + 1)
  {
    var e := table[k];
    var o := if Enabled(e.job, ctx, s.results, s.cancelled) then Success else Skipped;
    s' := s.(results := s.results[e.id := o]);
    NextId(table, k);
    assert NeedsDone(e.job, s.results);
    assert Settles(table, ctx, s, e, o, s');
    ReachableStep(table, ctx, s, s');
    GreenMore(table, s, k, o);
  }

  lemma GreenMore(table: Table, s: State, k: nat, o: Outcome)
    requires k < |table| && NoRepeats(Ids(table)) && GreenThrough(table, s, k) && o in {Success, Skipped}
    ensures GreenThrough(table, s.(results := s.results[table[k].id := o]), k + 1)
  {
    NextId(table, k);
  }

  lemma NothingSettled(table: Table)
    ensures GreenThrough(table, Initial, 0)
  {
  }

  lemma {:induction false} GreenPrefix(table: Table, ctx: Context, k: nat) returns (s: State)
    requires WellFormed(table) && k <= |table|
    ensures Reachable(table, ctx, s) && GreenThrough(table, s, k)
  {
    if k == 0 {
      s := Initial;
      InitiallyReachable(table, ctx);
      NothingSettled(table);
    } else {
      s := GreenPrefix(table, ctx, k - 1);
      s := SettleNext(table, ctx, s, k - 1);
    }
  }

  /** A well-formed table has a complete run in which exactly the skipped jobs did not succeed. */
  lemma GreenRun(table: Table, ctx: Context) returns (s: State)
    requires WellFormed(table)
    ensures Reachable(table, ctx, s) && Green(table, s)
    ensures forall e :: e in table ==> (s.results[e.id] == Success <==> Enabled(e.job, ctx, s.results, false))
  {
    s := GreenPrefix(table, ctx, |table|);
    assert table[..|table|] == table;
    ReachableIsConsistent(table, ctx, s);
    forall e | e in table ensures s.results[e.id] == Success <==> Enabled(e.job, ctx, s.results, false) {
      assert Justified(e.job, ctx, s, s.results[e.id]);
    }
  }
}
