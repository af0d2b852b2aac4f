/** What no run of the generated package workflow can do, and what its report means. */
module PackageRun {
  import opened Sequences
  import opened JobGraph
  import opened DeploymentPlan
  import opened Providers
  import opened PackageWorkflow

  predicate Ran(s: State, id: string) {
    id in s.results && s.results[id] != Skipped
  }

  predicate Succeeded(s: State, id: string) {
    id in s.results && s.results[id] == Success
  }

  predicate AllSucceeded(s: State, ps: seq<Planned>) {
    forall p :: p in ps ==> Succeeded(s, p.entry.id)
  }

  /** A settled planned job ran iff the branch is its own and its needs succeeded. */
  lemma PlannedJobRuns(jobs: seq<Planned>, needs: seq<string>, ctx: Context, s: State, p: Planned)
    requires Stacked(jobs) && p in jobs && p.entry.id in s.results
    requires Reachable(TableWith(jobs, needs), ctx, s)
    ensures Ran(s, p.entry.id) <==>
            ctx.branch == BranchName(p.branch) && forall n :: n in p.entry.job.needs ==> Succeeded(s, n)
    ensures NeedsDone(p.entry.job, s.results)
  {
    PlannedEntry(jobs, needs, p);
    TableIdsDiffer(jobs, needs);
    SettledPlainJob(TableWith(jobs, needs), ctx, s, p.entry);
  }

  lemma PlannedEntry(jobs: seq<Planned>, needs: seq<string>, p: Planned)
    requires Stacked(jobs) && p in jobs
    ensures p.entry in TableWith(jobs, needs) && p.entry.job.guard == BranchCondition(p.branch)
  {
    var k :| 0 <= k < |jobs| && jobs[k] == p;
    assert StackedAt(jobs, k) && TableWith(jobs, needs)[3 + k] == p.entry;
  }

  lemma FixedEntries(jobs: seq<Planned>, needs: seq<string>)
    ensures var table := TableWith(jobs, needs); Validate in table && Build in table && Gate in table
  {
    var table := TableWith(jobs, needs);
    assert table[0] == Validate && table[1] == Build && table[2] == Gate;
  }

  lemma OneNeed(job: Job, r: Results, n: string)
    requires job.needs == [n]
    ensures NeedsSucceeded(job, r) <==> n in r && r[n] == Success
  {
    assert job.needs[0] == n;
  }

  lemma ValidateRuns(jobs: seq<Planned>, needs: seq<string>, ctx: Context, s: State)
    requires Stacked(jobs) && Reachable(TableWith(jobs, needs), ctx, s) && Validate.id in s.results
    ensures Ran(s, Validate.id) <==> ctx.eventAllowed
  {
    TableIdsDiffer(jobs, needs);
    FixedEntries(jobs, needs);
    SettledPlainJob(TableWith(jobs, needs), ctx, s, Validate);
  }

  lemma BuildEnabled(ctx: Context, r: Results)
    ensures !CallsStatusFunction(Build.job.guard)
    ensures Holds(Build.job.guard, ctx, Build.job.needs, r, false) <==> ctx.branch in {"uat", "main"}
  {
  }

  lemma BuildRuns(jobs: seq<Planned>, needs: seq<string>, ctx: Context, s: State)
    requires Stacked(jobs) && Reachable(TableWith(jobs, needs), ctx, s) && Build.id in s.results
    ensures Ran(s, Build.id) <==> ctx.branch in {"uat", "main"} && Succeeded(s, Validate.id)
  {
    TableIdsDiffer(jobs, needs);
    FixedEntries(jobs, needs);
    OneNeed(Build.job, s.results, Validate.id);
    BuildEnabled(ctx, s.results);
    SettledPlainJob(TableWith(jobs, needs), ctx, s, Build);
  }

  /** The job feeding a planned job that does not wait for the stage jobs directly. */
  lemma Feeder(jobs: seq<Planned>, p: Planned) returns (d: Planned)
    requires Stacked(jobs) && p in jobs && !Direct(p)
    ensures d in jobs && Feeds(d, p)
  {
    var k :| 0 <= k < |jobs| && jobs[k] == p;
    assert StackedAt(jobs, k);
    var j :| 0 <= j < k && Feeds(jobs[j], jobs[k]);
    d := jobs[j];
  }

  /** A deployment or image build that ran is on its own branch with a successful build,
      and on main behind a passed production gate: for Render, through its docker job. */
  lemma DeployedBehindGates(ts: seq<Target>, ctx: Context, s: State, p: Planned)
    requires Reachable(PackageTable(ts), ctx, s) && p in Jobs(ts) && Ran(s, p.entry.id)
    ensures ctx.branch == BranchName(p.branch) && Succeeded(s, "build")
    ensures p.branch == Main ==> Succeeded(s, "production-gate")
  {
    var jobs := Jobs(ts);
    var needs := PlannedIds(UatJobs(jobs));
    JobsAreStacked(ts);
    PlannedJobRuns(jobs, needs, ctx, s, p);
    if Direct(p) {
      assert DeploymentNeeds(p.branch)[0] == "build";
      assert p.branch == Main ==> DeploymentNeeds(p.branch)[1] == "production-gate";
    } else {
      var d := Feeder(jobs, p);
      assert p.entry.job.needs[0] == d.entry.id;
      PlannedJobRuns(jobs, needs, ctx, s, d);
      assert DeploymentNeeds(d.branch)[0] == "build";
      assert d.branch == Main ==> DeploymentNeeds(d.branch)[1] == "production-gate";
    }
  }

  /** No run executes both a uat and a main deployment. */
  lemma OneBranchPerRun(ts: seq<Target>, ctx: Context, s: State, p: Planned, q: Planned)
    requires Reachable(PackageTable(ts), ctx, s) && p in Jobs(ts) && q in Jobs(ts)
    requires Ran(s, p.entry.id) && Ran(s, q.entry.id)
    ensures p.branch == q.branch
  {
    DeployedBehindGates(ts, ctx, s, p);
    DeployedBehindGates(ts, ctx, s, q);
  }

  // ----- Promotion -----

  predicate EndedWell(r: Results, n: string) {
    n in r && r[n] in {Success, Skipped}
  }

  lemma FixedGuards(ctx: Context, r: Results, needs: seq<string>, c: bool)
    ensures var guards, all := PromotionGuards(needs), ["build"] + needs;
            && (Holds(guards[0], ctx, all, r, c) <==> !c) && (Holds(guards[1], ctx, all, r, c) <==> ctx.branch == "uat")
            && (Holds(guards[2], ctx, all, r, c) <==> "build" in r && r["build"] == Success)
  {
    var guards := PromotionGuards(needs);
    assert guards[0] == NotCancelled && guards[1] == BranchIs("uat") && guards[2] == ResultIs("build", Success);
    assert (["build"] + needs)[0] == "build";
  }

  lemma NeedGuard(ctx: Context, r: Results, needs: seq<string>, c: bool, i: nat)
    requires i < |needs|
    ensures Holds(PromotionGuards(needs)[3 + i], ctx, ["build"] + needs, r, c) <==> EndedWell(r, needs[i])
  {
    assert PromotionGuards(needs)[3 + i] == SucceededOrSkipped(needs[i]);
    assert (["build"] + needs)[1 + i] == needs[i];
  }

  lemma PromotionGuardsHold(ctx: Context, r: Results, needs: seq<string>, c: bool)
    ensures var guards, all := PromotionGuards(needs), ["build"] + needs;
            (forall i :: 0 <= i < |guards| ==> Holds(guards[i], ctx, all, r, c)) <==>
            !c && ctx.branch == "uat" && "build" in r && r["build"] == Success && forall i :: 0 <= i < |needs| ==> EndedWell(r, needs[i])
  {
    var guards, all := PromotionGuards(needs), ["build"] + needs;
    FixedGuards(ctx, r, needs, c);
    forall i | 3 <= i < |guards| ensures Holds(guards[i], ctx, all, r, c) <==> EndedWell(r, needs[i - 3]) {
      NeedGuard(ctx, r, needs, c, i - 3);
    }
    if forall i :: 0 <= i < |guards| ==> Holds(guards[i], ctx, all, r, c) {
      forall i | 0 <= i < |needs| ensures EndedWell(r, needs[i]) {
        assert Holds(guards[3 + i], ctx, all, r, c);
      }
    }
  }

  /** What the joined promotion condition says. */
  lemma PromotionGuardMeans(ctx: Context, s: State, needs: seq<string>, c: bool)
    ensures var e := PromotionJob(needs);
            && CallsStatusFunction(e.job.guard)
            && (Holds(e.job.guard, ctx, e.job.needs, s.results, c) <==>
                !c && ctx.branch == "uat" && Succeeded(s, "build") && forall n :: n in needs ==> EndedWell(s.results, n))
  {
    var guards := PromotionGuards(needs);
    ConjunctionStatus(guards);
    assert guards[0] == NotCancelled && CallsStatusFunction(guards[0]);
    ConjunctionHolds(guards, ctx, PromotionJob(needs).job.needs, s.results, c);
    PromotionGuardsHold(ctx, s.results, needs, c);
  }

  predicate JobEndedWell(s: State, p: Planned) {
    EndedWell(s.results, p.entry.id)
  }

  /** Once its branch's stage jobs succeeded, a job that succeeded or was skipped, like
      every other job of its branch, was not skipped. */
  lemma EndedWellSucceeded(jobs: seq<Planned>, needs: seq<string>, ctx: Context, s: State, p: Planned)
    requires Stacked(jobs) && Reachable(TableWith(jobs, needs), ctx, s)
    requires forall q :: q in jobs && q.branch == p.branch ==> JobEndedWell(s, q)
    requires p in jobs && ctx.branch == BranchName(p.branch) && Succeeded(s, "build")
    requires p.branch == Main ==> Succeeded(s, "production-gate")
    ensures Succeeded(s, p.entry.id)
  {
    PlannedJobRuns(jobs, needs, ctx, s, p);
    if !Direct(p) {
      var d := Feeder(jobs, p);
      PlannedJobRuns(jobs, needs, ctx, s, d);
    }
  }

  /** On uat after a successful build, "success or skipped" cannot mean skipped. */
  lemma UatJobsCannotBeSkipped(ts: seq<Target>, ctx: Context, s: State)
    requires Reachable(PackageTable(ts), ctx, s) && ctx.branch == "uat" && Succeeded(s, "build")
    requires forall p :: p in UatJobs(Jobs(ts)) ==> JobEndedWell(s, p)
    ensures AllSucceeded(s, UatJobs(Jobs(ts)))
  {
    var jobs := Jobs(ts);
    JobsAreStacked(ts);
    forall p | p in UatJobs(jobs) ensures Succeeded(s, p.entry.id) {
      EndedWellSucceeded(jobs, PlannedIds(UatJobs(jobs)), ctx, s, p);
    }
  }

  lemma UatNeeds(jobs: seq<Planned>, n: string)
    ensures n in PlannedIds(UatJobs(jobs)) <==> exists p :: p in UatJobs(jobs) && p.entry.id == n
  {
  }

  lemma UatSettled(jobs: seq<Planned>, s: State)
    requires forall n :: n in PlannedIds(UatJobs(jobs)) ==> EndedWell(s.results, n)
    ensures forall p :: p in UatJobs(jobs) ==> JobEndedWell(s, p)
  {
  }

  /** The promotion job's condition, despite accepting skipped needs, is the same test as
      "not cancelled, on uat, build succeeded, and every uat build and deployment succeeded". */
  lemma PromotionGuardIsStrict(ts: seq<Target>, ctx: Context, s: State)
    requires Reachable(PackageTable(ts), ctx, s)
    ensures var e := PromotionJob(PlannedIds(UatJobs(Jobs(ts))));
            Enabled(e.job, ctx, s.results, s.cancelled) <==>
            !s.cancelled && ctx.branch == "uat" && Succeeded(s, "build") && AllSucceeded(s, UatJobs(Jobs(ts)))
  {
    var jobs := Jobs(ts);
    var needs := PlannedIds(UatJobs(jobs));
    PromotionGuardMeans(ctx, s, needs, s.cancelled);
    if Enabled(PromotionJob(needs).job, ctx, s.results, s.cancelled) {
      UatSettled(jobs, s);
      UatJobsCannotBeSkipped(ts, ctx, s);
    } else if AllSucceeded(s, UatJobs(jobs)) {
      forall n | n in needs ensures Succeeded(s, n) {
        UatNeeds(jobs, n);
      }
    }
  }

  lemma PromotionRan(jobs: seq<Planned>, needs: seq<string>, ctx: Context, s: State)
    requires Stacked(jobs) && Reachable(TableWith(jobs, needs), ctx, s) && Ran(s, "promote-to-main")
    ensures ctx.branch == "uat" && Succeeded(s, "build")
    ensures forall n :: n in needs ==> EndedWell(s.results, n)
  {
    var table, e := TableWith(jobs, needs), PromotionJob(needs);
    TableIdsDiffer(jobs, needs);
    ReachableIsConsistent(table, ctx, s);
    assert table[3 + |jobs|] == e;
    var c: bool :| (c ==> s.cancelled) && (s.results[e.id] == Skipped <==> !Enabled(e.job, ctx, s.results, c));
    PromotionGuardMeans(ctx, s, needs, c);
  }

  /** If promote-to-main ran, every planned uat image build and deployment succeeded. */
  lemma PromotionImpliesUatDeployed(ts: seq<Target>, ctx: Context, s: State)
    requires Reachable(PackageTable(ts), ctx, s) && Ran(s, "promote-to-main")
    ensures ctx.branch == "uat" && Succeeded(s, "build") && AllSucceeded(s, UatJobs(Jobs(ts)))
  {
    JobsAreStacked(ts);
    PromotionRan(Jobs(ts), PlannedIds(UatJobs(Jobs(ts))), ctx, s);
    UatSettled(Jobs(ts), s);
    UatJobsCannotBeSkipped(ts, ctx, s);
  }

  // ----- The gates can be passed -----

  lemma GreenStages(ts: seq<Target>, ctx: Context, s: State)
    requires Reachable(PackageTable(ts), ctx, s) && Green(PackageTable(ts), s)
    requires ctx.eventAllowed && ctx.branch in {"uat", "main"}
    ensures Succeeded(s, "build") && (ctx.branch == "main" ==> Succeeded(s, "production-gate"))
  {
    var jobs := Jobs(ts);
    var table, needs := PackageTable(ts), PlannedIds(UatJobs(jobs));
    JobsAreStacked(ts);
    assert table[0] == Validate && table[1] == Build && table[2] == Gate;
    ValidateRuns(jobs, needs, ctx, s);
    BuildRuns(jobs, needs, ctx, s);
    GateRuns(jobs, needs, ctx, s);
  }

  lemma GateRuns(jobs: seq<Planned>, needs: seq<string>, ctx: Context, s: State)
    requires Stacked(jobs) && Reachable(TableWith(jobs, needs), ctx, s) && Gate.id in s.results
    ensures Ran(s, Gate.id) <==> ctx.branch == "main" && Succeeded(s, "build")
  {
    TableIdsDiffer(jobs, needs);
    FixedEntries(jobs, needs);
    OneNeed(Gate.job, s.results, Build.id);
    SettledPlainJob(TableWith(jobs, needs), ctx, s, Gate);
  }

  lemma GreenPlanned(jobs: seq<Planned>, needs: seq<string>, s: State, p: Planned)
    requires Green(TableWith(jobs, needs), s) && p in jobs
    ensures JobEndedWell(s, p)
  {
    var k :| 0 <= k < |jobs| && jobs[k] == p;
    assert TableWith(jobs, needs)[3 + k] == p.entry;
  }

  /** For every target list and either branch there is a run in which every planned
      deployment of the branch succeeds and, on uat, the build is promoted: the gates are
      strict without being stuck. */
  lemma EveryPlanCanDeploy(ts: seq<Target>, b: Branch) returns (s: State)
    ensures Reachable(PackageTable(ts), Context(BranchName(b), true), s)
    ensures forall p :: p in Jobs(ts) && p.branch == b ==> Succeeded(s, p.entry.id)
    ensures b == Uat ==> Succeeded(s, "promote-to-main")
  {
    var ctx := Context(BranchName(b), true);
    PackageTableIsWellFormed(ts);
    s := GreenRun(PackageTable(ts), ctx);
    GreenStages(ts, ctx, s);
    var jobs, needs := Jobs(ts), PlannedIds(UatJobs(Jobs(ts)));
    JobsAreStacked(ts);
    forall p | p in jobs ensures JobEndedWell(s, p) {
      GreenPlanned(jobs, needs, s, p);
    }
    forall p | p in jobs && p.branch == b ensures Succeeded(s, p.entry.id) {
      EndedWellSucceeded(jobs, needs, ctx, s, p);
    }
    if b == Uat {
      PromotionGuardIsStrict(ts, ctx, s);
      assert PackageTable(ts)[3 + |Jobs(ts)|] == PromotionJob(PlannedIds(UatJobs(Jobs(ts))));
    }
  }

  // ----- Why the docker job must be among the promotion needs -----

  function RenderOnUat(slot: string): Target {
    Target(slot, Render, Some("uat"), RenderImagePushed, "")
  }

  lemma RenderOnUatJobs(slot: string)
    ensures var t := RenderOnUat(slot); Jobs([t]) == [DockerBuildJob(t, Uat), RenderDeployJob(t, Uat)]
  {
    var t := RenderOnUat(slot);
    var docker, deploy := DockerBuildJob(t, Uat), RenderDeployJob(t, Uat);
    DeployIsNotDocker(Render, slot, Uat, slot, Uat);
    WantedSnoc([], t);
    WantedOnAllSnoc(t, [], Uat);
    assert Wanted([t]) == [] + [docker, deploy];
    FirstPerIdPair([], docker, deploy);
  }

  lemma Settle(table: Table, ctx: Context, s: State, k: nat, o: Outcome) returns (s': State)
    requires Reachable(table, ctx, s) && k < |table|
    requires table[k].id !in s.results && NeedsDone(table[k].job, s.results)
    requires o == Skipped <==> !Enabled(table[k].job, ctx, s.results, s.cancelled)
    ensures s' == s.(results := s.results[table[k].id := o]) && Reachable(table, ctx, s')
  {
    s' := s.(results := s.results[table[k].id := o]);
    assert Settles(table, ctx, s, table[k], o, s');
    ReachableStep(table, ctx, s, s');
  }

  /** The state after the validation and the build succeeded. */
  function Built(more: Results): State {
    State(false, map["validate-access" := Success, "build" := Success] + more)
  }

  lemma BuildSucceeds(table: Table, ctx: Context)
    requires |table| >= 2 && table[0] == Validate && table[1] == Build
    requires ctx.eventAllowed && ctx.branch in {"uat", "main"}
    ensures Reachable(table, ctx, Built(map[]))
  {
    InitiallyReachable(table, ctx);
    var s := Settle(table, ctx, Initial, 0, Success);
    assert s.results == map["validate-access" := Success];
    assert Holds(Build.job.guard, ctx, Build.job.needs, s.results, false);
    s := Settle(table, ctx, s, 1, Success);
    assert s.results == Built(map[]).results;
  }

  lemma PlainGuard(job: Job, ctx: Context, s: State, name: string)
    requires job.guard == BranchIs(name) && NeedsDone(job, s.results)
    ensures Enabled(job, ctx, s.results, s.cancelled) <==>
            ctx.branch == name && forall n :: n in job.needs ==> s.results[n] == Success
  {
  }

  /** A job fails, and the one job that needs it is skipped. */
  lemma FailsThenSkips(table: Table, ctx: Context, i: nat, j: nat)
    requires Reachable(table, ctx, Built(map[])) && i < |table| && j < |table|
    requires table[i].job.needs == ["build"] && table[i].job.guard == BranchIs(ctx.branch)
    requires table[i].id in table[j].job.needs && table[j].job.guard == BranchIs(ctx.branch)
    requires forall n :: n in table[j].job.needs ==> n in ["build", table[i].id]
    requires table[i].id != table[j].id
    requires table[i].id !in ["validate-access", "build"] && table[j].id !in ["validate-access", "build"]
    ensures Reachable(table, ctx, Built(map[table[i].id := Failure, table[j].id := Skipped]))
  {
    var s := Built(map[]);
    PlainGuard(table[i].job, ctx, s, ctx.branch);
    s := Settle(table, ctx, s, i, Failure);
    assert s == Built(map[table[i].id := Failure]);
    PlainGuard(table[j].job, ctx, s, ctx.branch);
    s := Settle(table, ctx, s, j, Skipped);
    assert s.results == Built(map[table[i].id := Failure, table[j].id := Skipped]).results;
  }

  lemma PlannedIdsAreNotFixed(jobs: seq<Planned>, k: nat)
    requires Stacked(jobs) && k < |jobs|
    ensures jobs[k].entry.id !in ["validate-access", "build", "production-gate"]
  {
    assert StackedAt(jobs, k) && jobs[k].entry.id[0] == "d"[0];
  }

  lemma FailedBuildSkipsDeploy(t: Target, needs: seq<string>, ctx: Context)
    requires ctx == Context("uat", true)
    requires var docker, deploy := DockerId(t.slot, Uat), DeployId(t.provider, t.slot, Uat);
             docker != deploy && docker !in ["validate-access", "build"] && deploy !in ["validate-access", "build"]
    ensures Reachable(TableWith([DockerBuildJob(t, Uat), RenderDeployJob(t, Uat)], needs), ctx,
                      Built(map[DockerId(t.slot, Uat) := Failure, DeployId(t.provider, t.slot, Uat) := Skipped]))
  {
    var jobs := [DockerBuildJob(t, Uat), RenderDeployJob(t, Uat)];
    var table := TableWith(jobs, needs);
    assert table[3] == jobs[0].entry && table[4] == jobs[1].entry;
    BuildSucceeds(table, ctx);
    FailsThenSkips(table, ctx, 3, 4);
  }

  lemma FailedBuildState(docker: string, deploy: string)
    requires docker != deploy && docker !in ["validate-access", "build"] && deploy !in ["validate-access", "build"]
    ensures var s := Built(map[docker := Failure, deploy := Skipped]);
            Succeeded(s, "build") && forall n :: n in [deploy] ==> EndedWell(s.results, n)
  {
  }

  /** Were only the deploy job a promotion need, a failed uat image build would leave the
      deploy skipped and the promotion enabled: an undeployed build would be promoted. */
  lemma WithoutDockerNeedPromotesUndeployed(slot: string) returns (s: State)
    ensures var t, ctx := RenderOnUat(slot), Context("uat", true);
            var needs := [DeployId(Render, slot, Uat)];
            && Reachable(TableWith(Jobs([t]), needs), ctx, s)
            && s == Built(map[DockerId(slot, Uat) := Failure, DeployId(Render, slot, Uat) := Skipped])
            && Enabled(PromotionJob(needs).job, ctx, s.results, s.cancelled)
  {
    var t, ctx := RenderOnUat(slot), Context("uat", true);
    var docker, deploy := DockerId(slot, Uat), DeployId(Render, slot, Uat);
    RenderOnUatJobs(slot);
    JobsAreStacked([t]);
    DeployIsNotDocker(Render, slot, Uat, slot, Uat);
    PlannedIdsAreNotFixed(Jobs([t]), 0);
    PlannedIdsAreNotFixed(Jobs([t]), 1);
    FailedBuildSkipsDeploy(t, [deploy], ctx);
    s := Built(map[docker := Failure, deploy := Skipped]);
    FailedBuildState(docker, deploy);
    PromotionGuardMeans(ctx, s, [deploy], s.cancelled);
  }

  // ----- What the stage report means -----

  /** The conclusion the report job derives from `needs.*.result`. */
  function StageConclusion(needs: seq<string>, results: Results): Outcome {
    if exists n :: n in needs && n in results && results[n] == Failure then Failure
    else if exists n :: n in needs && n in results && results[n] == Cancelled then Cancelled
    else Success
  }

  /** A failed need makes the stage a failure, else a cancelled one makes it cancelled, else
      it is a success, whatever was skipped. */
  lemma ConclusionIs(needs: seq<string>, results: Results)
    ensures StageConclusion(needs, results) != Skipped
    ensures StageConclusion(needs, results) == Failure <==> exists n :: n in needs && n in results && results[n] == Failure
    ensures StageConclusion(needs, results) == Success <==>
            forall n :: n in needs && n in results ==> results[n] in {Success, Skipped}
  {
  }

  predicate ReportsSuccess(ts: seq<Target>, s: State) {
    && "report-results" in s.results
    && StageConclusion(ReportJob(PlannedIds(Jobs(ts))).job.needs, s.results) == Success
  }

  predicate Deployed(ts: seq<Target>, b: Branch, s: State) {
    forall p :: p in Jobs(ts) && p.branch == b ==> Succeeded(s, p.entry.id)
  }

  lemma SuccessfulConclusion(needs: seq<string>, results: Results, n: string)
    requires StageConclusion(needs, results) == Success && n in needs && n in results
    ensures results[n] in {Success, Skipped}
  {
  }

  lemma ReportSettles(ts: seq<Target>, ctx: Context, s: State, n: string)
    requires Reachable(PackageTable(ts), ctx, s) && ReportsSuccess(ts, s)
    requires n in ReportJob(PlannedIds(Jobs(ts))).job.needs
    ensures EndedWell(s.results, n)
  {
    var jobs := Jobs(ts);
    var e := ReportJob(PlannedIds(jobs));
    JobsAreStacked(ts);
    TableIdsDiffer(jobs, PlannedIds(UatJobs(jobs)));
    ReachableIsConsistent(PackageTable(ts), ctx, s);
    assert PackageTable(ts)[4 + |jobs|] == e;
    assert Justified(e.job, ctx, s, s.results[e.id]);
    SuccessfulConclusion(e.job.needs, s.results, n);
  }

  lemma ReportNeeds(jobs: seq<Planned>)
    ensures var needs := ReportJob(PlannedIds(jobs)).job.needs;
            && "validate-access" in needs && "build" in needs
            && forall p :: p in jobs ==> p.entry.id in needs
  {
  }

  /** A stage that reports success built, on uat or main, iff its trigger was acceptable. */
  lemma ReportedSuccessBuilt(ts: seq<Target>, ctx: Context, s: State)
    requires Reachable(PackageTable(ts), ctx, s) && ReportsSuccess(ts, s) && ctx.branch in {"uat", "main"}
    ensures Succeeded(s, "build") <==> ctx.eventAllowed
  {
    var jobs := Jobs(ts);
    var needs := PlannedIds(UatJobs(jobs));
    JobsAreStacked(ts);
    ReportNeeds(jobs);
    ReportSettles(ts, ctx, s, "validate-access");
    ReportSettles(ts, ctx, s, "build");
    ValidateRuns(jobs, needs, ctx, s);
    BuildRuns(jobs, needs, ctx, s);
  }

  /** The report job does not wait for the production gate and counts skipped needs as
      fine.  So when the package stage reports success on a branch with planned
      deployments, they took place iff the trigger was acceptable and, on main, the
      production gate succeeded. */
  lemma ReportedSuccessMeans(ts: seq<Target>, ctx: Context, s: State, b: Branch)
    requires Reachable(PackageTable(ts), ctx, s) && ReportsSuccess(ts, s) && ctx.branch == BranchName(b)
    requires exists p :: p in Jobs(ts) && p.branch == b
    ensures Deployed(ts, b, s) <==> ctx.eventAllowed && (b == Main ==> Succeeded(s, "production-gate"))
  {
    ReportedSuccessBuilt(ts, ctx, s);
    if Deployed(ts, b, s) {
      var p :| p in Jobs(ts) && p.branch == b;
      DeployedBehindGates(ts, ctx, s, p);
    }
    if ctx.eventAllowed && (b == Main ==> Succeeded(s, "production-gate")) {
      JobsAreStacked(ts);
      ReportedJobs(ts, ctx, s);
      forall p | p in Jobs(ts) && p.branch == b ensures Succeeded(s, p.entry.id) {
        EndedWellSucceeded(Jobs(ts), PlannedIds(UatJobs(Jobs(ts))), ctx, s, p);
      }
    }
  }

  lemma ReportedJobs(ts: seq<Target>, ctx: Context, s: State)
    requires Reachable(PackageTable(ts), ctx, s) && ReportsSuccess(ts, s)
    ensures forall p :: p in Jobs(ts) ==> JobEndedWell(s, p)
  {
    ReportNeeds(Jobs(ts));
    forall p | p in Jobs(ts) ensures JobEndedWell(s, p) {
      ReportSettles(ts, ctx, s, p.entry.id);
    }
  }

  lemma VercelOnMainJobs(t: Target)
    requires t.provider == Vercel && ResolveDeploymentBranches(t.branchName) == [Main]
    ensures Jobs([t]) == [VercelDeployJob(t, Main)] && UatJobs(Jobs([t])) == []
  {
    var deploy := VercelDeployJob(t, Main);
    WantedSnoc([], t);
    WantedOnAllSnoc(t, [], Main);
    assert [] + [Main] == [Main] && [] + [deploy] == [deploy];
    assert Wanted([t]) == [deploy];
    FirstPerIdSnoc([], deploy);
    assert [] + [deploy] == [deploy];
    UatOfOneBranch([deploy], Main);
  }

  /** The production gate failed, the one deployment behind it was skipped. */
  function GateFailed(deploy: string): State {
    Built(map["production-gate" := Failure, deploy := Skipped, "report-results" := Success])
  }

  lemma GateFails(table: Table, ctx: Context, id: string)
    requires |table| >= 6 && table[0] == Validate && table[1] == Build && table[2] == Gate
    requires table[3] == Entry(id, Job(DeploymentNeeds(Main), BranchIs("main"))) && table[5] == ReportJob([id])
    requires id !in ["validate-access", "build", "production-gate", "report-results"]
    requires ctx == Context("main", true)
    ensures Reachable(table, ctx, GateFailed(id))
  {
    BuildSucceeds(table, ctx);
    assert DeploymentNeeds(Main)[1] == "production-gate";
    FailsThenSkips(table, ctx, 2, 3);
    ReportAfter(table, ctx, id);
  }

  lemma ReportAfter(table: Table, ctx: Context, id: string)
    requires |table| >= 6 && table[5] == ReportJob([id]) && id != "report-results"
    requires Reachable(table, ctx, Built(map["production-gate" := Failure, id := Skipped]))
    ensures Reachable(table, ctx, GateFailed(id))
  {
    var before := Built(map["production-gate" := Failure, id := Skipped]);
    assert NeedsDone(ReportJob([id]).job, before.results);
    var s := Settle(table, ctx, before, 5, Success);
    assert s.results == GateFailed(id).results;
  }

  lemma GateFailedState(id: string)
    requires id !in ["validate-access", "build", "production-gate", "report-results"]
    ensures "report-results" in GateFailed(id).results && id in GateFailed(id).results && GateFailed(id).results[id] == Skipped
  {
  }

  lemma GateFailedReports(deploy: Planned)
    requires deploy.entry.id !in ["validate-access", "build", "production-gate", "report-results"]
    ensures StageConclusion(ReportJob(PlannedIds([deploy])).job.needs, GateFailed(deploy.entry.id).results) == Success
  {
  }

  lemma TableOfOne(job: Planned)
    ensures var table := TableWith([job], []);
            && |table| == 6 && table[0] == Validate && table[1] == Build && table[2] == Gate
            && table[3] == job.entry && table[5] == ReportJob([job.entry.id]) && PlannedIds([job]) == [job.entry.id]
  {
  }

  lemma GateFailsOn(deploy: Planned)
    requires Stacked([deploy]) && deploy.entry.job == Job(DeploymentNeeds(Main), BranchIs("main"))
    ensures deploy.entry.id !in ["validate-access", "build", "production-gate", "report-results"]
    ensures Reachable(TableWith([deploy], []), Context("main", true), GateFailed(deploy.entry.id))
  {
    TableOfOne(deploy);
    PlannedIdsAreNotFixed([deploy], 0);
    assert StackedAt([deploy], 0) && deploy.entry.id[0] == "d"[0];
    GateFails(TableWith([deploy], []), Context("main", true), deploy.entry.id);
  }

  /** In particular a production gate that failed is reported as a successful package
      stage that deployed nothing. */
  lemma FailedGateReportsSuccess(t: Target)
    requires t.provider == Vercel && ResolveDeploymentBranches(t.branchName) == [Main]
    ensures var deploy := VercelDeployJob(t, Main);
            var s := GateFailed(deploy.entry.id);
            && Jobs([t]) == [deploy] && s.results[deploy.entry.id] == Skipped
            && Reachable(PackageTable([t]), Context("main", true), s)
            && ReportsSuccess([t], s)
  {
    var deploy := VercelDeployJob(t, Main);
    VercelOnMainJobs(t);
    JobsAreStacked([t]);
    GateFailsOn(deploy);
    GateFailedReports(deploy);
    GateFailedState(deploy.entry.id);
    NothingOnUat(t);
  }

  lemma NothingOnUat(t: Target)
    requires Jobs([t]) == [VercelDeployJob(t, Main)] && UatJobs(Jobs([t])) == []
    ensures PackageTable([t]) == TableWith([VercelDeployJob(t, Main)], [])
  {
    assert PlannedIds([]) == [];
  }
}
