/** Which jobs a request plans, stated from its targets alone. */
module PlannedJobs {
  import opened Sequences
  import opened Providers
  import opened JobGraph
  import opened DeploymentPlan
  import opened PackageWorkflow

  /** A target asks for a deployment on a branch: it can be deployed by a job, and its branch
      is this one or names no deployed branch at all. */
  predicate Asks(t: Target, b: Branch) {
    && (t.provider == Vercel || t.strategy == RenderImagePushed)
    && (t.branchName == Some(if b == Uat then "uat" else "main")
        || (t.branchName != Some("uat") && t.branchName != Some("main")))
  }

  function DeployText(p: Provider, slot: string, b: Branch): string {
    (if p == Vercel then "deploy-vercel-" else "deploy-render-") + slot + if b == Uat then "-uat" else "-main"
  }

  function DockerText(slot: string, b: Branch): string {
    "docker-" + slot + if b == Uat then "-uat" else "-main"
  }

  predicate OfTarget(p: Planned, t: Target, b: Branch) {
    p.target == t && p.branch == b && p.entry.job.guard == BranchIs(if b == Uat then "uat" else "main")
  }

  predicate IsDeployOf(p: Planned, t: Target, b: Branch) {
    && OfTarget(p, t, b) && p.entry.id == DeployText(t.provider, t.slot, b)
    && p.entry.job.needs == if t.provider == Render then [DockerText(t.slot, b)]
                            else if b == Main then ["build", "production-gate"] else ["build"]
  }

  predicate IsDockerOf(p: Planned, t: Target, b: Branch) {
    && OfTarget(p, t, b) && p.entry.id == DockerText(t.slot, b) && t.provider == Render
    && p.entry.job.needs == if b == Main then ["build", "production-gate"] else ["build"]
  }

  predicate IsJobOf(p: Planned, t: Target, b: Branch) {
    Asks(t, b) && (IsDeployOf(p, t, b) || IsDockerOf(p, t, b))
  }

  // ----- What every target asks for -----

  lemma JobsOf(t: Target, b: Branch, p: Planned)
    ensures b in ResolveDeploymentBranches(t.branchName) && p in WantedOn(t, b) <==> IsJobOf(p, t, b)
  {
    assert DeployId(t.provider, t.slot, b) == DeployText(t.provider, t.slot, b);
    assert DockerId(t.slot, b) == DockerText(t.slot, b);
    assert DeploymentNeeds(b) == if b == Main then ["build", "production-gate"] else ["build"];
  }

  lemma {:induction false} WantedOnAllMembers(t: Target, bs: seq<Branch>, p: Planned)
    ensures p in WantedOnAll(t, bs) <==> exists b :: b in bs && p in WantedOn(t, b)
  {
    if bs != [] {
      WantedOnAllMembers(t, bs[..|bs| - 1], p);
      InitAndLast(bs);
      assert forall b :: b in bs <==> b in bs[..|bs| - 1] || b == bs[|bs| - 1];
    }
  }

  lemma WantedOfTarget(t: Target, p: Planned)
    ensures p in WantedOnAll(t, ResolveDeploymentBranches(t.branchName)) <==> exists b :: IsJobOf(p, t, b)
  {
    WantedOnAllMembers(t, ResolveDeploymentBranches(t.branchName), p);
    forall b ensures b in ResolveDeploymentBranches(t.branchName) && p in WantedOn(t, b) <==> IsJobOf(p, t, b) {
      JobsOf(t, b, p);
    }
  }

  lemma {:induction false} WantedMembers(ts: seq<Target>, p: Planned)
    ensures p in Wanted(ts) <==> exists t, b :: t in ts && IsJobOf(p, t, b)
  {
    if ts != [] {
      WantedMembers(ts[..|ts| - 1], p);
      WantedOfTarget(ts[|ts| - 1], p);
      InitAndLast(ts);
      assert forall t :: t in ts <==> t in ts[..|ts| - 1] || t == ts[|ts| - 1];
    }
  }

  // ----- Which jobs are planned -----

  lemma IdPlanned(ts: seq<Target>, id: string)
    ensures id in PlannedIds(Jobs(ts)) <==> exists p :: p in Wanted(ts) && p.entry.id == id
  {
    FirstPerIdIds(Wanted(ts));
    var w := Wanted(ts);
    if p :| p in w && p.entry.id == id {
      var i :| 0 <= i < |w| && w[i] == p;
      assert PlannedIds(w)[i] == id;
    }
  }

  lemma SameText(p: Provider, s: string, b: Branch, p': Provider, s': string, b': Branch)
    ensures DeployText(p, s, b) == DeployText(p', s', b') ==> p == p' && s == s' && b == b'
    ensures DockerText(s, b) == DockerText(s', b') ==> s == s' && b == b'
    ensures DeployText(p, s, b) != DockerText(s', b')
  {
    IdsDiffer(p, s, b, p', s', b');
  }

  /** A deploy job is planned for a provider, slot and branch exactly when some target with
      that provider and slot asks for that branch, and an image build comes with it exactly
      for Render. */
  lemma PlannedIff(ts: seq<Target>, provider: Provider, slot: string, b: Branch)
    ensures DeployText(provider, slot, b) in PlannedIds(Jobs(ts)) <==>
            exists t :: t in ts && t.provider == provider && t.slot == slot && Asks(t, b)
    ensures DockerText(slot, b) in PlannedIds(Jobs(ts)) <==>
            exists t :: t in ts && t.provider == Render && t.slot == slot && Asks(t, b)
  {
    DeployPlanned(ts, provider, slot, b);
    DockerPlanned(ts, slot, b);
  }

  lemma AskedFor(ts: seq<Target>, t: Target, b: Branch, p: Planned)
    requires t in ts && Asks(t, b) && p in WantedOn(t, b)
    ensures p in Wanted(ts)
  {
    assert b in ResolveDeploymentBranches(t.branchName);
    JobsOf(t, b, p);
    WantedMembers(ts, p);
  }

  lemma DeployPlanned(ts: seq<Target>, provider: Provider, slot: string, b: Branch)
    ensures DeployText(provider, slot, b) in PlannedIds(Jobs(ts)) <==>
            exists t :: t in ts && t.provider == provider && t.slot == slot && Asks(t, b)
  {
    var id := DeployText(provider, slot, b);
    IdPlanned(ts, id);
    if p :| p in Wanted(ts) && p.entry.id == id {
      WantedMembers(ts, p);
      var t, b' :| t in ts && IsJobOf(p, t, b');
      SameText(provider, slot, b, t.provider, t.slot, b');
    }
    if t :| t in ts && t.provider == provider && t.slot == slot && Asks(t, b) {
      AskedFor(ts, t, b, if provider == Vercel then VercelDeployJob(t, b) else RenderDeployJob(t, b));
      assert DeployId(provider, slot, b) == id;
    }
  }

  lemma DockerPlanned(ts: seq<Target>, slot: string, b: Branch)
    ensures DockerText(slot, b) in PlannedIds(Jobs(ts)) <==>
            exists t :: t in ts && t.provider == Render && t.slot == slot && Asks(t, b)
  {
    var id := DockerText(slot, b);
    IdPlanned(ts, id);
    if p :| p in Wanted(ts) && p.entry.id == id {
      WantedMembers(ts, p);
      var t, b' :| t in ts && IsJobOf(p, t, b');
      SameText(t.provider, t.slot, b', t.provider, slot, b);
    }
    if t :| t in ts && t.provider == Render && t.slot == slot && Asks(t, b) {
      AskedFor(ts, t, b, DockerBuildJob(t, b));
    }
  }

  // ----- What the planned jobs are -----

  /** The first target that asks for this provider, slot and branch. */
  predicate FirstAsking(ts: seq<Target>, i: nat, b: Branch) {
    && i < |ts| && Asks(ts[i], b)
    && forall j :: 0 <= j < i ==> !(ts[j].provider == ts[i].provider && ts[j].slot == ts[i].slot && Asks(ts[j], b))
  }

  lemma {:induction false} NewJobs(ps: seq<Planned>, qs: seq<Planned>, p: Planned)
    requires p in FirstPerId(ps + qs)
    ensures p in FirstPerId(ps) || (p in qs && p.entry.id !in PlannedIds(FirstPerId(ps)))
  {
    if qs == [] {
      NoMore(ps);
    } else {
      var init, last := qs[..|qs| - 1], qs[|qs| - 1];
      InitAndLast(qs);
      Assoc(ps, init, [last]);
      FirstPerIdSnoc(ps + init, last);
      if p in FirstPerId(ps + init) {
        NewJobs(ps, init, p);
      } else {
        EarlierIdsStay(ps, init, p.entry.id);
      }
    }
  }

  lemma EarlierIdsStay(ps: seq<Planned>, qs: seq<Planned>, id: string)
    ensures id in PlannedIds(FirstPerId(ps)) ==> id in PlannedIds(FirstPerId(ps + qs))
  {
    FirstPerIdIds(ps);
    FirstPerIdIds(ps + qs);
    IdsOfConcat(ps, qs);
  }

  /** Every planned job is the deploy job or the image build of the first target that asks
      for its provider, slot and branch, with that target's settings, its branch's condition
      and its branch's needs. */
  lemma {:induction false} PlannedJobIs(ts: seq<Target>, p: Planned) returns (i: nat)
    requires p in Jobs(ts)
    ensures FirstAsking(ts, i, p.branch) && IsJobOf(p, ts[i], p.branch)
  {
    var init, t := ts[..|ts| - 1], ts[|ts| - 1];
    InitAndLast(ts);
    WantedSnoc(init, t);
    NewJobs(Wanted(init), WantedOnAll(t, ResolveDeploymentBranches(t.branchName)), p);
    if p in Jobs(init) {
      i := PlannedJobIs(init, p);
    } else {
      i := |init|;
      WantedOfTarget(t, p);
      var b :| IsJobOf(p, t, b);
      PlannedIff(init, t.provider, t.slot, b);
    }
  }
}
