/** The package stage's job table and what can happen in a run of it. */
module PackageWorkflow {
  import opened Sequences
  import opened JobGraph
  import opened DeploymentPlan
  import opened Providers

  const Validate := Entry("validate-access", Job([], EventAllowed))

  const Build := Entry("build", Job(["validate-access"], Or(BranchIs("uat"), BranchIs("main"))))

  const Gate := Entry("production-gate", Job(["build"], BranchIs("main")))

  function SucceededOrSkipped(need: string): Guard {
    Or(ResultIs(need, Success), ResultIs(need, Skipped))
  }

  function PromotionGuards(additionalNeeds: seq<string>): seq<Guard> {
    [NotCancelled, BranchIs("uat"), ResultIs("build", Success)] + Map(SucceededOrSkipped, additionalNeeds)
  }

  function PromotionJob(additionalNeeds: seq<string>): Entry {
    Entry("promote-to-main", Job(["build"] + additionalNeeds, Conjunction(PromotionGuards(additionalNeeds))))
  }

  function ReportJob(jobIds: seq<string>): Entry {
    Entry("report-results", Job(["validate-access", "build"] + jobIds, Always))
  }

  function EntryOf(p: Planned): Entry {
    p.entry
  }

  function Entries(ps: seq<Planned>): seq<Entry> {
    Map(EntryOf, ps)
  }

  function Jobs(ts: seq<Target>): seq<Planned> {
    FirstPerId(Wanted(ts))
  }

  /** The `jobs` object of the package workflow, in definition order, with the promotion
      job waiting for `needs`. */
  function TableWith(jobs: seq<Planned>, needs: seq<string>): Table {
    [Validate, Build, Gate] + Entries(jobs) + [PromotionJob(needs), ReportJob(PlannedIds(jobs))]
  }

  function PackageTable(ts: seq<Target>): Table {
    TableWith(Jobs(ts), PlannedIds(UatJobs(Jobs(ts))))
  }

  // ----- The plan -----

  lemma WantedConcatSnoc(a: seq<Target>, b: seq<Target>, t: Target)
    requires Wanted(a + b) == Wanted(a) + Wanted(b)
    ensures Wanted(a + (b + [t])) == Wanted(a) + Wanted(b + [t])
  {
    Assoc(a, b, [t]);
    WantedSnoc(a + b, t);
    WantedSnoc(b, t);
    Assoc(Wanted(a), Wanted(b), WantedOnAll(t, ResolveDeploymentBranches(t.branchName)));
  }

  lemma {:induction false} WantedConcat(a: seq<Target>, b: seq<Target>)
    ensures Wanted(a + b) == Wanted(a) + Wanted(b)
  {
    if b == [] {
      NoMore(a);
      NoMore(Wanted(a));
    } else {
      var init, t := b[..|b| - 1], b[|b| - 1];
      WantedConcat(a, init);
      InitAndLast(b);
      WantedConcatSnoc(a, init, t);
    }
  }

  lemma {:induction false} FirstPerIdAbsorbs(ps: seq<Planned>, qs: seq<Planned>)
    requires forall q :: q in qs ==> q.entry.id in PlannedIds(ps)
    ensures FirstPerId(ps + qs) == FirstPerId(ps)
  {
    if qs == [] {
      assert ps + qs == ps;
    } else {
      var init, q := qs[..|qs| - 1], qs[|qs| - 1];
      assert qs == init + [q];
      FirstPerIdAbsorbs(ps, init);
      Assoc(ps, init, [q]);
      FirstPerIdSnoc(ps + init, q);
      FirstPerIdIds(ps);
    }
  }

  /** Listing every target a second time changes nothing. */
  lemma PlanningTwiceIsPlanningOnce(ts: seq<Target>)
    ensures Jobs(ts + ts) == Jobs(ts) && PackageTable(ts + ts) == PackageTable(ts)
  {
    WantedConcat(ts, ts);
    var w := Wanted(ts);
    forall q | q in w ensures q.entry.id in PlannedIds(w) {
      var i :| 0 <= i < |w| && w[i] == q;
      assert PlannedIds(w)[i] == q.entry.id;
    }
    FirstPerIdAbsorbs(w, w);
  }

  /** When several targets ask for the same job, the first one's settings are used. */
  lemma {:induction false} FirstTargetWins(ps: seq<Planned>, k: nat)
    requires k < |FirstPerId(ps)|
    ensures exists i :: 0 <= i < |ps| && ps[i] == FirstPerId(ps)[k]
                     && forall j :: 0 <= j < i ==> ps[j].entry.id != ps[i].entry.id
  {
    var init, last := ps[..|ps| - 1], ps[|ps| - 1];
    if k < |FirstPerId(init)| {
      FirstTargetWins(init, k);
    } else {
      FirstPerIdIds(init);
      forall j | 0 <= j < |ps| - 1 ensures ps[j].entry.id != last.entry.id {
        assert PlannedIds(init)[j] == ps[j].entry.id;
      }
    }
  }

  /** The shape every plan has: distinct ids that no fixed job uses, each job guarded by its
      branch, and each waiting either for the branch's stage jobs or for one earlier job
      of the same branch that does. */
  ghost predicate Stacked(ps: seq<Planned>) {
    && NoRepeats(PlannedIds(ps))
    && forall k :: 0 <= k < |ps| ==> StackedAt(ps, k)
  }

  ghost predicate StackedAt(ps: seq<Planned>, k: nat)
    requires k < |ps|
  {
    && "d" <= ps[k].entry.id
    && ps[k].entry.job.guard == BranchCondition(ps[k].branch)
    && (Direct(ps[k]) || exists j :: 0 <= j < k && Feeds(ps[j], ps[k]))
  }

  predicate Direct(p: Planned) {
    p.entry.job.needs == DeploymentNeeds(p.branch)
  }

  predicate Feeds(d: Planned, p: Planned) {
    d.branch == p.branch && Direct(d) && p.entry.job.needs == [d.entry.id]
  }

  lemma WantedOnShape(t: Target, b: Branch)
    ensures var w := WantedOn(t, b);
            && (forall p :: p in w ==> "d" <= p.entry.id && p.branch == b && p.entry.job.guard == BranchCondition(b))
            && (|w| == 0 || (|w| == 1 && Direct(w[0])) || (|w| == 2 && Direct(w[0]) && Feeds(w[0], w[1])))
  {
  }

  lemma StackGrows(ps: seq<Planned>, t: Target, b: Branch)
    requires Stacked(ps) && NoRepeats(PlannedIds(ps + WantedOn(t, b)))
    ensures Stacked(ps + WantedOn(t, b))
  {
    var w := WantedOn(t, b);
    var qs := ps + w;
    WantedOnShape(t, b);
    forall k | 0 <= k < |qs| ensures StackedAt(qs, k) {
      if k < |ps| {
        assert StackedAt(ps, k) && qs[k] == ps[k];
        if !Direct(ps[k]) {
          var j :| 0 <= j < k && Feeds(ps[j], ps[k]);
          assert Feeds(qs[j], qs[k]);
        }
      } else {
        assert qs[k] == w[k - |ps|] && qs[k] in w;
        if k == |ps| + 1 {
          assert Feeds(qs[|ps|], qs[k]);
        }
      }
    }
  }

  lemma {:induction false} WantedIsStacked(ts: seq<Target>, t: Target, bs: seq<Branch>)
    ensures Stacked(FirstPerId(Wanted(ts) + WantedOnAll(t, bs)))
    decreases |ts|, |bs|
  {
    if bs != [] {
      var init, b := bs[..|bs| - 1], bs[|bs| - 1];
      assert bs == init + [b];
      WantedIsStacked(ts, t, init);
      PlanStep(ts, t, init, b);
      FirstPerIdIds(Wanted(ts) + WantedOnAll(t, bs));
      if DeployId(t.provider, t.slot, b) !in PlannedIds(FirstPerId(Wanted(ts) + WantedOnAll(t, init))) {
        StackGrows(FirstPerId(Wanted(ts) + WantedOnAll(t, init)), t, b);
      }
    } else if ts != [] {
      var last := ts[|ts| - 1];
      WantedIsStacked(ts[..|ts| - 1], last, ResolveDeploymentBranches(last.branchName));
      assert Wanted(ts) + WantedOnAll(t, bs) == Wanted(ts);
    }
  }

  lemma JobsAreStacked(ts: seq<Target>)
    ensures Stacked(Jobs(ts))
  {
    if ts != [] {
      var last := ts[|ts| - 1];
      WantedIsStacked(ts[..|ts| - 1], last, ResolveDeploymentBranches(last.branchName));
    }
  }

  // ----- Well-formedness -----

  lemma NoRepeatsConcat(a: seq<string>, b: seq<string>)
    requires NoRepeats(a) && NoRepeats(b) && forall x :: x in a ==> x !in b
    ensures NoRepeats(a + b)
  {
    var s := a + b;
    forall i, j | 0 <= i < j < |s| ensures s[i] != s[j] {
      if i < |a| <= j {
        assert s[i] in a && s[j] == b[j - |a|];
      }
    }
  }

  lemma TableIds(jobs: seq<Planned>, needs: seq<string>)
    ensures Ids(TableWith(jobs, needs)) ==
            ["validate-access", "build", "production-gate"] + PlannedIds(jobs) + ["promote-to-main", "report-results"]
  {
  }

  lemma TableIdsDiffer(jobs: seq<Planned>, needs: seq<string>)
    requires Stacked(jobs)
    ensures NoRepeats(Ids(TableWith(jobs, needs)))
  {
    TableIds(jobs, needs);
    var first, last := ["validate-access", "build", "production-gate"], ["promote-to-main", "report-results"];
    forall id | id in PlannedIds(jobs) ensures id !in first && id !in last {
      var k :| 0 <= k < |jobs| && PlannedIds(jobs)[k] == id;
      assert StackedAt(jobs, k);
      assert id[0] == "d"[0];
    }
    assert forall x :: x in first ==> x[0] in {'v', 'b', 'p'};
    NoRepeatsConcat(first, PlannedIds(jobs));
    NoRepeatsConcat(first + PlannedIds(jobs), last);
  }

  /** The generated job graph is well-formed for every target list with any slot names. */
  lemma PackageTableIsWellFormed(ts: seq<Target>)
    ensures WellFormed(PackageTable(ts))
  {
    JobsAreStacked(ts);
    var jobs := Jobs(ts);
    var table := PackageTable(ts);
    TableIdsDiffer(jobs, PlannedIds(UatJobs(jobs)));
    forall i, n | 0 <= i < |table| && n in table[i].job.needs ensures n in Ids(table[..i]) {
      NeedIsEarlier(jobs, i, n);
    }
  }

  lemma EarlierId(table: Table, i: nat, j: nat)
    requires j < i <= |table|
    ensures table[j].id in Ids(table[..i])
  {
    assert Ids(table[..i])[j] == table[j].id;
  }

  lemma PlannedNeedIsEarlier(jobs: seq<Planned>, table: Table, k: nat, n: string)
    requires Stacked(jobs) && k < |jobs| && n in jobs[k].entry.job.needs
    requires |table| > 3 + k && table[..3] == [Validate, Build, Gate] && forall j :: 0 <= j <= k ==> table[3 + j] == jobs[j].entry
    ensures n in Ids(table[..3 + k])
  {
    assert StackedAt(jobs, k) && table[1] == table[..3][1] && table[2] == table[..3][2];
    EarlierId(table, 3 + k, 1);
    EarlierId(table, 3 + k, 2);
    if !Direct(jobs[k]) {
      var j :| 0 <= j < k && Feeds(jobs[j], jobs[k]);
      EarlierId(table, 3 + k, 3 + j);
    }
  }

  lemma PlannedIndex(jobs: seq<Planned>, n: string) returns (j: nat)
    requires n in PlannedIds(jobs) || n in PlannedIds(UatJobs(jobs))
    ensures j < |jobs| && jobs[j].entry.id == n
  {
    var p :| p in jobs && p.entry.id == n;
    j :| 0 <= j < |jobs| && jobs[j] == p;
  }

  lemma NeedIsEarlier(jobs: seq<Planned>, i: nat, n: string)
    requires Stacked(jobs)
    requires var table := TableWith(jobs, PlannedIds(UatJobs(jobs))); i < |table| && n in table[i].job.needs
    ensures n in Ids(TableWith(jobs, PlannedIds(UatJobs(jobs)))[..i])
  {
    var table := TableWith(jobs, PlannedIds(UatJobs(jobs)));
    if i < 3 {
      EarlierId(table, i, i - 1);
    } else if i < 3 + |jobs| {
      PlannedNeedIsEarlier(jobs, table, i - 3, n);
    } else {
      EarlierId(table, i, 0);
      EarlierId(table, i, 1);
      if n in PlannedIds(jobs) || n in PlannedIds(UatJobs(jobs)) {
        var j := PlannedIndex(jobs, n);
        EarlierId(table, i, 3 + j);
      }
    }
  }
}
