/** Turning deployment targets into CI jobs: `buildPackageDeploymentPlan` and the job builders. */
module DeploymentPlan {
  import opened Sequences
  import opened JobGraph
  import opened Providers

  datatype Strategy = VercelCiPushed | RenderImagePushed | RenderGitConnected | RenderExistingService

  /** `settings` stands for the fields the job builders copy into `with` and `secrets`. */
  datatype Target = Target(slot: string, provider: Provider, branchName: Option<string>,
                           strategy: Strategy, settings: string)

  /** A planned job, with the branch it deploys and the target whose settings it carries. */
  datatype Planned = Planned(entry: Entry, branch: Branch, target: Target)

  datatype Plan = Plan(jobs: seq<Planned>, jobIds: seq<string>, uatNeeds: seq<string>)

  function DeployPrefix(p: Provider): string {
    match p case Vercel => "deploy-vercel-" case Render => "deploy-render-"
  }

  function BranchSuffix(b: Branch): string {
    match b case Uat => "-uat" case Main => "-main"
  }

  function ResolveDeploymentBranches(branchName: Option<string>): seq<Branch> {
    if branchName == Some("uat") then [Uat]
    else if branchName == Some("main") then [Main]
    else [Uat, Main]
  }

  function DeployId(p: Provider, slot: string, b: Branch): string {
    DeployPrefix(p) + slot + BranchSuffix(b)
  }

  function DockerId(slot: string, b: Branch): string {
    "docker-" + slot + BranchSuffix(b)
  }

  function DeploymentNeeds(b: Branch): seq<string> {
    if b == Main then ["build", "production-gate"] else ["build"]
  }

  function BranchCondition(b: Branch): Guard {
    BranchIs(BranchName(b))
  }

  function VercelDeployJob(t: Target, b: Branch): Planned {
    Planned(Entry(DeployId(t.provider, t.slot, b), Job(DeploymentNeeds(b), BranchCondition(b))), b, t)
  }

  function DockerBuildJob(t: Target, b: Branch): Planned {
    Planned(Entry(DockerId(t.slot, b), Job(DeploymentNeeds(b), BranchCondition(b))), b, t)
  }

  function RenderDeployJob(t: Target, b: Branch): Planned {
    Planned(Entry(DeployId(t.provider, t.slot, b), Job([DockerId(t.slot, b)], BranchCondition(b))), b, t)
  }

  predicate Deployable(t: Target) {
    t.provider == Vercel || (t.provider == Render && t.strategy == RenderImagePushed)
  }

  /** The jobs one target asks for on one branch. */
  function WantedOn(t: Target, b: Branch): seq<Planned> {
    if t.provider == Vercel then [VercelDeployJob(t, b)]
    else if Deployable(t) then [DockerBuildJob(t, b), RenderDeployJob(t, b)]
    else []
  }

  function WantedOnAll(t: Target, bs: seq<Branch>): seq<Planned> {
    if bs == [] then [] else WantedOnAll(t, bs[..|bs| - 1]) + WantedOn(t, bs[|bs| - 1])
  }

  /** Every job every target asks for, in request order, repeats included. */
  function Wanted(ts: seq<Target>): seq<Planned> {
    if ts == [] then []
    else
      var t := ts[|ts| - 1];
      Wanted(ts[..|ts| - 1]) + WantedOnAll(t, ResolveDeploymentBranches(t.branchName))
  }

  function PlannedId(p: Planned): string {
    p.entry.id
  }

  function PlannedIds(ps: seq<Planned>): (ids: seq<string>)
    ensures |ids| == |ps| && forall i :: 0 <= i < |ps| ==> ids[i] == ps[i].entry.id
  {
    Map(PlannedId, ps)
  }

  /** First come, first served: of the jobs asking for one id, only the first is kept. */
  function FirstPerId(ps: seq<Planned>): seq<Planned> {
    if ps == [] then []
    else
      var init := FirstPerId(ps[..|ps| - 1]);
      var last := ps[|ps| - 1];
      if last.entry.id in PlannedIds(init) then init else init + [last]
  }

  predicate OnUat(p: Planned) {
    p.branch == Uat
  }

  function UatJobs(ps: seq<Planned>): seq<Planned> {
    Filter(OnUat, ps)
  }

  // ----- Job ids -----

  lemma Between(a: string, s: string, s': string, z: string, z': string)
    requires |z| > 0 && |z'| > 0 && (z == z' || z[|z| - 1] != z'[|z'| - 1])
    requires a + s + z == a + s' + z'
    ensures s == s' && z == z'
  {
    var whole := a + s + z;
    assert whole[|whole| - 1] == z[|z| - 1] && (a + s' + z')[|whole| - 1] == z'[|z'| - 1];
    assert |s| == |s'|;
    assert s == whole[|a|..|a| + |s|] && s' == (a + s' + z')[|a|..|a| + |s'|];
  }

  lemma PrefixesDiffer(a: string, a': string, rest: string, rest': string, k: nat)
    requires k < |a| && k < |a'| && a[k] != a'[k]
    ensures a + rest != a' + rest'
  {
    assert (a + rest)[k] == a[k] && (a' + rest')[k] == a'[k];
  }

  lemma DeployIdsDiffer(p: Provider, s: string, b: Branch, p': Provider, s': string, b': Branch)
    requires DeployId(p, s, b) == DeployId(p', s', b')
    ensures p == p' && s == s' && b == b'
  {
    var z, z' := BranchSuffix(b), BranchSuffix(b');
    if p != p' {
      Assoc(DeployPrefix(p), s, z);
      Assoc(DeployPrefix(p'), s', z');
      PrefixesDiffer(DeployPrefix(p), DeployPrefix(p'), s + z, s' + z', 7);
    }
    Between(DeployPrefix(p), s, s', z, z');
  }

  lemma DeployIsNotDocker(p: Provider, s: string, b: Branch, s': string, b': Branch)
    ensures DeployId(p, s, b) != DockerId(s', b')
  {
    var z, z' := BranchSuffix(b), BranchSuffix(b');
    Assoc(DeployPrefix(p), s, z);
    Assoc("docker-", s', z');
    PrefixesDiffer(DeployPrefix(p), "docker-", s + z, s' + z', 1);
  }

  /** Whatever strings the slots are, ids of different jobs differ. */
  lemma IdsDiffer(p: Provider, s: string, b: Branch, p': Provider, s': string, b': Branch)
    ensures DeployId(p, s, b) == DeployId(p', s', b') ==> p == p' && s == s' && b == b'
    ensures DockerId(s, b) == DockerId(s', b') ==> s == s' && b == b'
    ensures DeployId(p, s, b) != DockerId(s', b')
  {
    if DeployId(p, s, b) == DeployId(p', s', b') {
      DeployIdsDiffer(p, s, b, p', s', b');
    }
    if DockerId(s, b) == DockerId(s', b') {
      Between("docker-", s, s', BranchSuffix(b), BranchSuffix(b'));
    }
    DeployIsNotDocker(p, s, b, s', b');
  }

  /** A planned docker build and the deploy it feeds always come together. */
  ghost predicate Paired(ps: seq<Planned>) {
    forall slot, b :: DockerId(slot, b) in PlannedIds(ps) <==> DeployId(Render, slot, b) in PlannedIds(ps)
  }

  lemma IdsOfConcat(ps: seq<Planned>, qs: seq<Planned>)
    ensures PlannedIds(ps + qs) == PlannedIds(ps) + PlannedIds(qs)
  {
  }

  lemma WantedOnKeepsPaired(ps: seq<Planned>, t: Target, b: Branch)
    requires Paired(ps)
    ensures Paired(ps + WantedOn(t, b))
  {
    var qs := WantedOn(t, b);
    IdsOfConcat(ps, qs);
    forall slot, b'
      ensures DockerId(slot, b') in PlannedIds(qs) <==> DeployId(Render, slot, b') in PlannedIds(qs)
    {
      IdsDiffer(t.provider, t.slot, b, Render, slot, b');
      IdsDiffer(Render, slot, b', t.provider, t.slot, b);
      if t.provider == Vercel {
        assert PlannedIds(qs) == [DeployId(t.provider, t.slot, b)];
      } else if Deployable(t) {
        assert PlannedIds(qs) == [DockerId(t.slot, b), DeployId(t.provider, t.slot, b)];
      }
    }
  }

  lemma {:induction false} FirstPerIdIds(ps: seq<Planned>)
    ensures PlannedIds(FirstPerId(ps)) == Distinct(PlannedIds(ps))
  {
    if ps != [] {
      var init, last := ps[..|ps| - 1], ps[|ps| - 1];
      FirstPerIdIds(init);
      assert ps == init + [last];
      IdsOfConcat(init, [last]);
      IdsOfConcat(FirstPerId(init), [last]);
      DistinctSnoc(PlannedIds(init), last.entry.id);
    }
  }

  lemma FirstPerIdSnoc(ps: seq<Planned>, p: Planned)
    ensures FirstPerId(ps + [p]) ==
            if p.entry.id in PlannedIds(FirstPerId(ps)) then FirstPerId(ps) else FirstPerId(ps) + [p]
  {
  }

  lemma IdsOfSnoc(ps: seq<Planned>, p: Planned, id: string)
    ensures id in PlannedIds(ps + [p]) <==> id in PlannedIds(ps) || id == p.entry.id
  {
    IdsOfConcat(ps, [p]);
    assert PlannedIds(ps + [p]) == PlannedIds(ps) + [p.entry.id];
  }

  lemma FirstPerIdPair(ps: seq<Planned>, p: Planned, q: Planned)
    requires p.entry.id != q.entry.id
    requires p.entry.id in PlannedIds(ps) <==> q.entry.id in PlannedIds(ps)
    ensures FirstPerId(ps + [p, q]) ==
            if q.entry.id in PlannedIds(FirstPerId(ps)) then FirstPerId(ps) else FirstPerId(ps) + [p, q]
  {
    FirstPerIdIds(ps);
    SnocTwice(ps, p, q);
    SnocTwice(FirstPerId(ps), p, q);
    FirstPerIdSnoc(ps, p);
    FirstPerIdSnoc(ps + [p], q);
    IdsOfSnoc(FirstPerId(ps), p, q.entry.id);
  }

  /** Adding everything a target wants on a branch, in the terms the loop computes it. */
  lemma AddWanted(ps: seq<Planned>, t: Target, b: Branch)
    requires Paired(ps)
    ensures var known := DeployId(t.provider, t.slot, b) in PlannedIds(FirstPerId(ps));
            FirstPerId(ps + WantedOn(t, b)) ==
            if known then FirstPerId(ps) else FirstPerId(ps) + WantedOn(t, b)
  {
    if t.provider == Vercel {
      FirstPerIdSnoc(ps, VercelDeployJob(t, b));
    } else if Deployable(t) {
      IdsDiffer(Render, t.slot, b, Render, t.slot, b);
      FirstPerIdPair(ps, DockerBuildJob(t, b), RenderDeployJob(t, b));
    } else {
      assert ps + WantedOn(t, b) == ps;
      assert FirstPerId(ps) + WantedOn(t, b) == FirstPerId(ps);
    }
  }

  lemma UatConcat(ps: seq<Planned>, qs: seq<Planned>)
    ensures PlannedIds(UatJobs(ps + qs)) == PlannedIds(UatJobs(ps)) + PlannedIds(UatJobs(qs))
  {
    FilterConcat(OnUat, ps, qs);
    IdsOfConcat(UatJobs(ps), UatJobs(qs));
  }

  lemma {:induction false} UatOfOneBranch(ps: seq<Planned>, b: Branch)
    requires forall p :: p in ps ==> p.branch == b
    ensures UatJobs(ps) == if b == Uat then ps else []
  {
    if ps != [] {
      assert ps == [ps[0]] + ps[1..];
      UatOfOneBranch(ps[1..], b);
      FilterConcat(OnUat, [ps[0]], ps[1..]);
    }
  }

  lemma PlanGrows(jobs: seq<Planned>, more: seq<Planned>, b: Branch)
    requires forall p :: p in more ==> p.branch == b
    ensures PlannedIds(jobs + more) == PlannedIds(jobs) + PlannedIds(more)
    ensures PlannedIds(UatJobs(jobs + more)) ==
            PlannedIds(UatJobs(jobs)) + (if b == Uat then PlannedIds(more) else [])
  {
    IdsOfConcat(jobs, more);
    UatConcat(jobs, more);
    UatOfOneBranch(more, b);
  }

  lemma {:induction false} WantedIsPaired(ts: seq<Target>, t: Target, bs: seq<Branch>)
    ensures Paired(Wanted(ts) + WantedOnAll(t, bs))
    decreases |ts|, |bs|
  {
    if bs != [] {
      var init, b := bs[..|bs| - 1], bs[|bs| - 1];
      WantedIsPaired(ts, t, init);
      WantedOnKeepsPaired(Wanted(ts) + WantedOnAll(t, init), t, b);
      Assoc(Wanted(ts), WantedOnAll(t, init), WantedOn(t, b));
    } else if ts != [] {
      var last := ts[|ts| - 1];
      WantedIsPaired(ts[..|ts| - 1], last, ResolveDeploymentBranches(last.branchName));
      assert Wanted(ts) + WantedOnAll(t, bs) == Wanted(ts);
    }
  }

  lemma WantedOnAllSnoc(t: Target, bs: seq<Branch>, b: Branch)
    ensures WantedOnAll(t, bs + [b]) == WantedOnAll(t, bs) + WantedOn(t, b)
  {
  }

  lemma WantedSnoc(ts: seq<Target>, t: Target)
    ensures Wanted(ts + [t]) == Wanted(ts) + WantedOnAll(t, ResolveDeploymentBranches(t.branchName))
  {
  }

  /** What one pass through the inner loop does to the jobs planned so far. */
  lemma PlanStep(ts: seq<Target>, t: Target, bs: seq<Branch>, b: Branch)
    ensures var jobs := FirstPerId(Wanted(ts) + WantedOnAll(t, bs));
            FirstPerId(Wanted(ts) + WantedOnAll(t, bs + [b])) ==
            if DeployId(t.provider, t.slot, b) in PlannedIds(jobs) then jobs else jobs + WantedOn(t, b)
  {
    var wanted := Wanted(ts) + WantedOnAll(t, bs);
    WantedIsPaired(ts, t, bs);
    AddWanted(wanted, t, b);
    WantedOnAllSnoc(t, bs, b);
    Assoc(Wanted(ts), WantedOnAll(t, bs), WantedOn(t, b));
  }

  /** The plan agrees with the wanted jobs seen so far. */
  ghost predicate Plans(plan: Plan, wanted: seq<Planned>) {
    && plan.jobs == FirstPerId(wanted)
    && plan.jobIds == PlannedIds(plan.jobs)
    && plan.uatNeeds == PlannedIds(UatJobs(plan.jobs))
  }

  /** The body of the inner loop: plan one target on one branch. */
  method PlanOn(plan: Plan, target: Target, branch: Branch) returns (plan': Plan)
    requires plan.jobIds == PlannedIds(plan.jobs) && plan.uatNeeds == PlannedIds(UatJobs(plan.jobs))
    ensures plan'.jobs == if DeployId(target.provider, target.slot, branch) in PlannedIds(plan.jobs) then plan.jobs
                          else plan.jobs + WantedOn(target, branch)
    ensures plan'.jobIds == PlannedIds(plan'.jobs) && plan'.uatNeeds == PlannedIds(UatJobs(plan'.jobs))
  {
    var Plan(jobs, jobIds, uatNeeds) := plan;
    var jobId := DeployId(target.provider, target.slot, branch);
    if jobId in PlannedIds(jobs) {
      return plan;
    }
    PlanGrows(jobs, WantedOn(target, branch), branch);
    if target.provider == Vercel {
      jobs := jobs + [VercelDeployJob(target, branch)];
    } else if target.provider == Render && target.strategy == RenderImagePushed {
      var dockerJobId := DockerId(target.slot, branch);
      jobs := jobs + [DockerBuildJob(target, branch), RenderDeployJob(target, branch)];
      jobIds := jobIds + [dockerJobId];
      if branch == Uat {
        uatNeeds := uatNeeds + [dockerJobId];
      }
    } else {
      assert jobs + WantedOn(target, branch) == jobs;
      return plan;
    }
    jobIds := jobIds + [jobId];
    if branch == Uat {
      uatNeeds := uatNeeds + [jobId];
    }
    plan' := Plan(jobs, jobIds, uatNeeds);
  }

  lemma PlanOnPlans(plan: Plan, plan': Plan, ts: seq<Target>, t: Target, bs: seq<Branch>, b: Branch)
    requires Plans(plan, Wanted(ts) + WantedOnAll(t, bs))
    requires plan'.jobs == if DeployId(t.provider, t.slot, b) in PlannedIds(plan.jobs) then plan.jobs
                           else plan.jobs + WantedOn(t, b)
    requires plan'.jobIds == PlannedIds(plan'.jobs) && plan'.uatNeeds == PlannedIds(UatJobs(plan'.jobs))
    ensures Plans(plan', Wanted(ts) + WantedOnAll(t, bs + [b]))
  {
    PlanStep(ts, t, bs, b);
  }

  /** The inner loop: plan one target on each of its branches. */
  method PlanTarget(plan: Plan, target: Target, ghost before: seq<Target>) returns (plan': Plan)
    requires Plans(plan, Wanted(before))
    ensures Plans(plan', Wanted(before + [target]))
  {
    var branches := ResolveDeploymentBranches(target.branchName);
    plan' := plan;
    assert Wanted(before) + WantedOnAll(target, branches[..0]) == Wanted(before);
    for j := 0 to |branches|
      invariant Plans(plan', Wanted(before) + WantedOnAll(target, branches[..j]))
    {
      assert branches[..j + 1] == branches[..j] + [branches[j]];
      ghost var earlier := plan';
      plan' := PlanOn(plan', target, branches[j]);
      PlanOnPlans(earlier, plan', before, target, branches[..j], branches[j]);
    }
    assert branches[..|branches|] == branches;
    WantedSnoc(before, target);
  }

  /** The plan the nested loops build is the first-come-first-served reading of the
      wanted jobs: `jobIds` lists exactly its keys and `promotionNeeds.uat` exactly its
      uat keys. */
  method BuildPackageDeploymentPlan(targets: seq<Target>) returns (plan: Plan)
    ensures plan.jobs == FirstPerId(Wanted(targets))
    ensures plan.jobIds == PlannedIds(plan.jobs)
    ensures plan.uatNeeds == PlannedIds(UatJobs(plan.jobs))
  {
    plan := Plan([], [], []);
    for i := 0 to |targets|
      invariant Plans(plan, Wanted(targets[..i]))
    {
      PrefixGrows(targets, i);
      plan := PlanTarget(plan, targets[i], targets[..i]);
    }
    assert targets[..|targets|] == targets;
  }
}
