# AlphaCI, modelled and proved

AlphaCI provisions projects: it generates GitHub Actions workflows, creates Render and Vercel
services, wires them together, follows GitHub team roles, and keeps books on keys, findings, CI
runs and subscriptions. This project models the deterministic cores of that backend and proves
what they keep over every input and every run.

| files | what they model |
|---|---|
| `JobGraph`, `DeploymentPlan`, `PackageWorkflow`, `PlannedJobs`, `PackageRun` | deployment targets become CI jobs; a step semantics of one workflow run; what no run can do |
| `ProvisioningRequest`, `RenderTargets`, `RenderStages`, `EnvSets`, `CrossLink`, `CrossLinkFrame` | fan-out of managed Render targets, layering of environment variables, wiring services to each other and what that overwrites |
| `EnvKeys` | the environment-key table and the quota on it |
| `TeamRoles`, `RoleRuns` | roles from GitHub teams and Console edits; whole runs of logins, webhooks, sweeps and edits |
| `DriftFindings`, `DriftDetection`, `DriftRuns` | drift findings reconciled by key; detection and repair over whole runs |
| `RunOrder`, `CiRuns`, `ActivityFeed`, `Subscriptions` | CI stage rows folded into runs, cursor pagination, the subscription ledger and its readers |
| `WebhookDeliveries`, `WebhookRuns`, `LiveConnections` | claiming webhook deliveries under any interleaving and crash; checking out live connections |
| `CaCert`, `Text`, `Sequences`, `Providers` | rebuilding a PEM from mangled newlines; shared vocabulary |

Code that updates state in place is a class whose methods are proved against a function of the old
state; the lemmas are about that function. Outside answers (GitHub, providers, the database
connection) are parameters that may be anything.

## Where the code differs from what its text promises

* The package stage's report job does not wait for the production gate and counts skipped jobs as
  fine. A failed gate is therefore reported as a successful stage that deployed nothing
  (`FailedGateReportsSuccess`); what a reported success does mean is `ReportedSuccessMeans`.
* The promotion condition accepts skipped jobs. That is harmless only because the docker job is a
  promotion need as well: with the deploy job alone an undeployed build would be promoted
  (`WithoutDockerNeedPromotesUndeployed`).
* The team sweep gives up only when both rosters are empty, not when either is. With an empty lead
  roster it demotes every synced lead (`EmptyLeadRosterDemotes`).
* The sweep and the per-user sync can differ (`SweepAgreesWithSync` says when): an unreadable lead
  check with a yes on developers demotes a rostered lead (`UnreadableLeadIsDemoted`), and answers
  that resolve nothing keep a role the sweep would change.
* Reset to GitHub leaves an admin an admin, whatever GitHub says later (`ResetAdminStaysAdmin`).
* A user who is granted a lower platform role may have been the last super-admin; only the route's
  guard prevents it (`GrantCanDemoteTheLastSuperAdmin`, `SuperAdminsNeverRunOut`).
* A fanned-out group covers both stages iff it named at most one branch or both stages already; a
  third branch name keeps it from being fanned out (`CoversBothStages`,
  `ThirdBranchKeepsMainAway`).
* The CI run queries order by a column that they select as text under its own name, so PostgreSQL
  compares run ids digit by digit. "Most recent first" holds iff text ranks the ids of a
  page as numbers do (`RecentFirstIff`); a stage is shown from its newest attempt iff text ranks
  every older one first (`NewestShownIff`); run 9 hides its re-run 10 (`NineHidesTen`).
* Cross-linking promises never to override a value the user named. Render keeps one set of
  variables for a whole service and Vercel one for `test` and `uat` together, so a value named for
  one environment is replaced when the pass writes the same key for another one of the same place
  (`NamedKeyIsKeptIff`, `TestKeyIsLost`).
* Repeated finding keys leave rows that are never refreshed; exactly when is
  `StaleRowsAreTheRepeatedOnes`, an instance `SecondDetectionLeavesStaleRow`, and which findings
  can repeat a key is `OnlyEnvKeysShareAKey`.
* Every statement is sent a second time after a connection error, even if the first sending took
  effect. A release sent again can so delete the claim of a later handler, and the delivery is
  then claimed and processed by two (`ExclusiveUntilStolen`, `StolenClaimProcessesTwice`).
* A claim whose answer is lost, or whose holder crashes, is never released: the delivery can neither
  be claimed nor processed again, unless such a resent release happens to free it
  (`LostClaimOrphans`, `CrashOrphans`, `OrphanedClaimIsStuckIff`).
* Detaching a target is declared for a second finding code, `provider_target_missing_live`, which is
  refused earlier for needing a live provider, so no repair with that code completes (`Mends`).
* Pagination loses events exactly when a page ends between two events of one millisecond, the
  precision with which the cursor leaves the database (`FollowingGivesAll`, `SameMillisecondIsLost`).

## Model

| member | source | states |
|---|---|---|
| JobGraph.ReachableIsConsistent | src/modules/workflows/staged-workflow.builder.ts:349-374 | in every reachable state of a run of any job table, each settled job has the outcome its needs, its condition and the branch call for |
| JobGraph.SettledPlainJob | src/modules/workflows/staged-workflow.builder.ts:788-794 | a settled job whose condition calls no status function ran iff its needs all succeeded and its condition holds |
| JobGraph.SomeJobCanSettle | src/modules/workflows/staged-workflow.builder.ts:349-374 | a well-formed job table never deadlocks: while a job is unsettled some job can settle |
| JobGraph.GreenRun | src/modules/workflows/staged-workflow.builder.ts:349-374 | a well-formed job table has a complete run in which no job failed and exactly the jobs that were not enabled were skipped |
| DeploymentPlan.BuildPackageDeploymentPlan | src/modules/workflows/staged-workflow.builder.ts:707-768 | the nested loops give the first job asked for under each id; `jobIds` is exactly the plan's keys and the uat promotion needs exactly its uat keys, in order |
| DeploymentPlan.PlanOn | src/modules/workflows/staged-workflow.builder.ts:722-764 | one target on one branch adds nothing if its deploy job exists, else exactly the jobs it wants, and keeps both id lists in step |
| DeploymentPlan.IdsDiffer | src/modules/workflows/staged-workflow.builder.ts:738-786 | for arbitrary slot strings, different jobs have different ids |
| DeploymentPlan.FirstPerIdIds | src/modules/workflows/staged-workflow.builder.ts:721-733 | the ids of the plan are the distinct ids asked for, in first-seen order, so none repeats |
| DeploymentPlan.PlanStep | src/modules/workflows/staged-workflow.builder.ts:722-764 | looking only at the deploy id, as the loop does, agrees with keeping the first job per id, because docker and deploy jobs always come together |
| PackageWorkflow.PlanningTwiceIsPlanningOnce | src/modules/workflows/staged-workflow.builder.ts:707-768 | listing all targets twice gives the same plan and the same job table |
| PackageWorkflow.FirstTargetWins | src/modules/workflows/staged-workflow.builder.ts:721-733 | every planned job is the first one asked for under its id |
| PackageWorkflow.JobsAreStacked | src/modules/workflows/staged-workflow.builder.ts:788-886 | every planned job is guarded by its own branch and needs either its branch's stage jobs or one earlier job of the same branch that does |
| PlannedJobs.PlannedIff | src/modules/workflows/staged-workflow.builder.ts:721-778 | a deploy job is planned for a provider, slot and branch iff some target with that provider and slot can be deployed by a job and names that branch or neither uat nor main; an image build comes with it iff it is Render |
| PlannedJobs.PlannedJobIs | src/modules/workflows/staged-workflow.builder.ts:721-886 | every planned job is the deploy job or the image build of the first target asking for its provider, slot and branch, with that target's settings, the branch's condition and the branch's needs |
| PackageWorkflow.PackageTableIsWellFormed | src/modules/workflows/staged-workflow.builder.ts:349-374 | for every target list, ids of the package jobs are distinct and each need names an earlier job, so the graph is acyclic |
| PackageRun.BuildRuns | src/modules/workflows/staged-workflow.builder.ts:673-676 | the build runs iff the branch is uat or main and the validation succeeded |
| PackageRun.DeployedBehindGates | src/modules/workflows/staged-workflow.builder.ts:788-910 | a deployment or image build runs only on its own branch behind a successful build, and on main behind a passed production gate, for Render through its docker job |
| PackageRun.OneBranchPerRun | src/modules/workflows/staged-workflow.builder.ts:788-794 | no run executes both a uat and a main deployment |
| PackageRun.PromotionGuardMeans | src/modules/workflows/staged-workflow.builder.ts:924-961 | the joined promotion condition holds iff not cancelled, on uat, the build succeeded and each further need succeeded or was skipped |
| PackageRun.EndedWellSucceeded | src/modules/workflows/staged-workflow.builder.ts:788-910 | once the stage jobs of its branch succeeded, a planned job that succeeded or was skipped, like the others of its branch, succeeded |
| PackageRun.UatJobsCannotBeSkipped | src/modules/workflows/staged-workflow.builder.ts:788-886 | on uat after a successful build, uat jobs that all succeeded or were skipped all succeeded |
| PackageRun.PromotionGuardIsStrict | src/modules/workflows/staged-workflow.builder.ts:924-961 | in every reachable state the promotion condition is equivalent to: not cancelled, on uat, build and every uat build and deployment succeeded |
| PackageRun.PromotionImpliesUatDeployed | src/modules/workflows/staged-workflow.builder.ts:924-961 | for every target list and run, if promote-to-main ran, every planned uat job ended in success |
| PackageRun.EveryPlanCanDeploy | src/modules/workflows/staged-workflow.builder.ts:349-374 | for every target list and either branch some run deploys everything planned for it and, on uat, promotes: the gates are strict without being stuck |
| PackageRun.WithoutDockerNeedPromotesUndeployed | src/modules/workflows/staged-workflow.builder.ts:749-763 | were the docker job no promotion need, a reachable run would promote with a failed image build and a skipped deploy |
| PackageRun.ReportedSuccessBuilt | src/modules/workflows/staged-workflow.builder.ts:369-373 | a stage that reports success on uat or main built iff its trigger was acceptable |
| PackageRun.ConclusionIs | src/modules/workflows/staged-workflow.builder.ts:985-1030 | a failed need makes the reported conclusion a failure, else a cancelled one makes it cancelled, else it is a success, whatever was skipped |
| PackageRun.ReportedSuccessMeans | src/modules/workflows/staged-workflow.builder.ts:985-1080 | when the stage reports success, its planned deployments took place iff the trigger was acceptable and, on main, the gate succeeded |
| PackageRun.FailedGateReportsSuccess | src/modules/workflows/staged-workflow.builder.ts:985-1080 | a run exists in which the gate failed, nothing was deployed and the stage reports success |
| RenderTargets.RenameForgets | src/modules/env-provisioning/project-deployment-provisioning.service.ts:595-606 | for every name, renaming for one branch and then another is renaming for the other |
| RenderTargets.FanOutIgnoresNormalization | src/modules/env-provisioning/project-deployment-provisioning.service.ts:531-566 | reading `test` as uat first does not change what a target fans out to |
| RenderTargets.NoTestBranch | src/modules/env-provisioning/project-deployment-provisioning.service.ts:531-566 | no expanded target is on the test branch |
| RenderTargets.CoversBothStages | src/modules/env-provisioning/project-deployment-provisioning.service.ts:531-593 | an eligible group ends up on uat and main iff it named at most one branch or both already |
| RenderTargets.ThirdBranchKeepsMainAway | src/modules/env-provisioning/project-deployment-provisioning.service.ts:568-593 | a managed backend asked for on uat and on a branch of its own is not fanned out and gets no main service |
| RenderTargets.ExpandIsIdempotent | src/modules/env-provisioning/project-deployment-provisioning.service.ts:531-593 | expanding twice is expanding once, for every target list |
| RenderStages.FansOutIff | src/modules/env-provisioning/project-deployment-provisioning.service.ts:568-593 | a target fans out iff it is a managed Render target, not an existing service, and its Render siblings of one owner and slot name at most one branch |
| RenderStages.RenamedTo | src/modules/env-provisioning/project-deployment-provisioning.service.ts:595-606 | a name is trimmed, loses one of the four stage suffixes in any letter case if it has one, and gets the branch's |
| RenderStages.ReadAs | src/modules/env-provisioning/project-deployment-provisioning.service.ts:534-550 | a target on `test` is read as on uat, for Render with that Render environment, every other one as it is |
| RenderStages.ExpandsTo | src/modules/env-provisioning/project-deployment-provisioning.service.ts:552-566 | the expansion takes targets in order; one that fans out gives exactly a copy on uat in Render environment uat and one on main in production, named for their branch and otherwise unchanged, every other one itself |
| RenderStages.ExpansionOf | src/modules/env-provisioning/project-deployment-provisioning.service.ts:531-566 | so for every request, with the targets as they are read |
| RenderStages.CopyGetsItsVariables | src/modules/env-provisioning/project-deployment-provisioning.service.ts:661-675 | production variables are for the copy on main and no other, uat variables for the copy on uat |
| EnvSets.ResolveEnvSets | src/modules/env-provisioning/project-deployment-provisioning.service.ts:497-529 | at most one set comes out, for the target's environment, holding for each key the last non-empty value written by shared, applicable group and own layers; none iff nothing was written |
| EnvSets.LastWriteAt | src/modules/env-provisioning/project-deployment-provisioning.service.ts:677-695 | the value kept for a key is that of the last variable, over all sets of the environment in order, with that key and neither key nor value empty; none iff there is no such variable |
| EnvSets.StrongestLayerWins | src/modules/env-provisioning/project-deployment-provisioning.service.ts:497-529 | a target's own sets beat the applicable groups, and those the shared sets |
| EnvSets.LastApplicableGroupWins | src/modules/env-provisioning/project-deployment-provisioning.service.ts:640-655 | of the applicable groups that write a key the last one wins |
| EnvSets.AppliesIff | src/modules/env-provisioning/project-deployment-provisioning.service.ts:640-659 | a group applies to its provider, if any, and to all targets or those listed by slot, provider and branch, a missing branch being uat |
| EnvSets.EnvironmentOf | src/modules/env-provisioning/project-deployment-provisioning.service.ts:661-675 | variables are for the Render environment if given, else for production on main and uat otherwise |
| EnvSets.MergeEnvSet | src/modules/env-provisioning/project-deployment-provisioning.service.ts:677-695 | merging one more set keeps last-writer-wins for every environment |
| EnvSets.MergeGroups | src/modules/env-provisioning/project-deployment-provisioning.service.ts:640-655 | exactly the groups that apply to the target's provider and branch are merged, in order |
| EnvSets.ValidateVars | src/modules/env-provisioning/env-vars.service.ts:340-363 | accepts exactly the non-empty lists of valid keys without repetition and with values in size, and otherwise names the first offence |
| EnvSets.AcceptableIff | src/modules/env-provisioning/env-vars.service.ts:340-363 | a variable is acceptable iff its key is valid and not used before and its value has at most 16384 characters |
| EnvSets.ValidKeyIff | src/modules/env-provisioning/env-vars.service.ts:29 | a key is valid iff it has two to 128 characters out of capitals, digits and underscores, no digit first |
| EnvSets.ResolvedSetsValidate | src/modules/env-provisioning/project-deployment-provisioning.service.ts:497-529 | a resolved set is never refused as empty or for a repeated key |
| CrossLink.UserKeyIsInjective | src/modules/env-provisioning/project-deployment-provisioning.service.ts:470-495 | the joined text identifies environment and key, whatever the key |
| CrossLink.KeysOfMeans | src/modules/env-provisioning/project-deployment-provisioning.service.ts:470-495 | the collected keys are exactly those named for an environment anywhere in the request |
| CrossLink.UserProvidedEnvKeys | src/modules/env-provisioning/project-deployment-provisioning.service.ts:470-495 | the nested loops collect the keys of shared, group and target sets |
| CrossLink.EnvStore.InjectEnvVars | src/modules/env-provisioning/project-deployment-provisioning.service.ts:377-412 | an injection writes the variables the user has not named, or makes no call when none is left |
| CrossLink.EnvStore.CrossLinkServiceUrls | src/modules/env-provisioning/project-deployment-provisioning.service.ts:285-375 | the pass carries out the link plan in order, one call each, whatever the providers answer |
| CrossLink.LinkedRoles | src/modules/env-provisioning/project-deployment-provisioning.service.ts:297-317 | the linked frontends and backends are the created targets by slot; a standalone Vercel project is a frontend, a standalone Render service a backend |
| CrossLink.NamedInRequest | src/modules/env-provisioning/project-deployment-provisioning.service.ts:470-495 | a key is named for an environment by the shared sets, by any group or by any target |
| CrossLink.StagesOf | src/modules/env-provisioning/project-deployment-provisioning.service.ts:429-436 | a Vercel project stands for uat and production, a Render service for production if that is its Render environment and else for uat |
| CrossLink.RenderAddress | src/modules/env-provisioning/project-deployment-provisioning.service.ts:438-451 | a Render service's address is the one it reports, else its default one if it has a name |
| CrossLink.VercelAddress | src/modules/env-provisioning/project-deployment-provisioning.service.ts:453-467 | a Vercel project's address is its production domain, outside production its uat alias when the team is known |
| CrossLink.SamePlaceIff | src/modules/env-provisioning/provider-clients/vercel-env.client.ts:24-28 | two writes meet iff they are to one service and, on Vercel, both or neither for production |
| CrossLink.LinkPlanMembers | src/modules/env-provisioning/project-deployment-provisioning.service.ts:285-375 | the writes of the plan are exactly those of its backends and of its frontends' environments, none unless both roles exist |
| CrossLink.ApiUrlComesFromServingBackend | src/modules/env-provisioning/project-deployment-provisioning.service.ts:339-373 | an API address is written for uat or production into a frontend that is Vercel or of that stage, and is that of the first backend with an address that is Vercel or of that stage |
| CrossLink.OriginsAreTheFrontendUrls | src/modules/env-provisioning/project-deployment-provisioning.service.ts:310-337 | a backend is told, for production if that is its Render environment and else for uat, exactly the distinct frontend addresses as origins and the first of them as frontend address |
| CrossLink.EveryBackendIsTold | src/modules/env-provisioning/project-deployment-provisioning.service.ts:310-337 | every linked backend is told both keys for its own stage when a frontend has an address there, unless the user set them |
| CrossLink.EveryFrontendIsTold | src/modules/env-provisioning/project-deployment-provisioning.service.ts:339-373 | every linked frontend is told both API keys for its own stage, a Vercel project for uat and for production, when a backend of that stage has an address, unless the user set them |
| CrossLinkFrame.CarriedOnlyIfAccepted | src/modules/env-provisioning/project-deployment-provisioning.service.ts:377-412 | a key that no provider accepts in any call of the pass stays as it was everywhere: failures degrade to nothing |
| CrossLinkFrame.KeptIff | src/modules/env-provisioning/project-deployment-provisioning.service.ts:285-412 | whatever providers hold and answer, a key at a place (a Render service, or the preview or production side of a Vercel project) is left alone iff no linked target there is told it |
| CrossLinkFrame.NamedKeyIsKeptIff | src/modules/env-provisioning/project-deployment-provisioning.service.ts:470-495 | a key the user named for an environment of a target keeps its value, or its absence, iff no linked target at the same place is told the same key for another environment |
| CrossLinkFrame.KeyNamedEverywhereIsKept | src/modules/env-provisioning/project-deployment-provisioning.service.ts:470-495 | a key named for every environment is kept on every target |
| CrossLinkFrame.ProductionKeyIsKeptOnVercel | src/modules/env-provisioning/provider-clients/vercel-env.client.ts:24-28 | a key named for production is kept on every Vercel project, whose other environments are stored apart |
| CrossLinkFrame.TestKeyIsLost | src/modules/env-provisioning/provider-clients/render-env.client.ts:160-200 | a request whose backend is in Render environment `test` and names its origins for `test`: layering gives the backend that value, and the pass replaces it |
| EnvKeys.EnvVarsService.UpsertEnvMetadataBatch | src/modules/env-provisioning/env-vars.repository.ts:94-147 | a batch with distinct keys inserts the missing rows and revives the removed ones; one that repeats a key fails as a whole |
| EnvKeys.UpsertedRow | src/modules/env-provisioning/env-vars.repository.ts:94-147 | the batch's rows become active, an existing row keeping its project; every other row stays |
| EnvKeys.EnvVarsService.ProvisionEnvVars | src/modules/env-provisioning/env-vars.service.ts:111-186 | succeeds exactly when the variables are acceptable, the target exists, the quota allows the new keys and the provider answers with distinct keys; otherwise the table is untouched; refused for quota exactly when new keys would exceed 25, on pro 500 |
| EnvKeys.EnvVarsService.DeleteEnvMetadata | src/modules/env-provisioning/env-vars.service.ts:188-240 | removes exactly an active row the provider agrees to remove |
| EnvKeys.UpsertKeepsValid | src/modules/env-provisioning/env-vars.repository.ts:94-147 | every row still belongs to the project of its deployment target |
| EnvKeys.UpsertActivates | src/modules/env-provisioning/env-vars.repository.ts:94-147 | the active keys afterwards are those before and those of the batch |
| EnvKeys.UpsertAdds | src/modules/env-provisioning/env-vars.repository.ts:94-171 | the owner's total grows by exactly the keys that were not active, revived ones included |
| EnvKeys.UpsertSpares | src/modules/usage/usage-quota.service.ts:194-250 | other users' totals do not change |
| EnvKeys.ProvisioningRespectsQuota | src/modules/usage/usage-quota.service.ts:66-99 | a successful request adds exactly the new keys and never moves the owner's total above the plan limit |
| EnvKeys.RemovalIsUndone | src/modules/env-provisioning/env-vars.repository.ts:204-235 | removal frees exactly one place and provisioning the key again restores the table |
| EnvKeys.TotalStaysWithinLimit | src/modules/usage/usage-quota.service.ts:66-99 | over any run of requests and removals by anybody, an owner within the limit of a fixed plan stays within it, and one above it never rises further |
| TeamRoles.RoleService.SyncRoleForUser | src/modules/github/github-team-role.service.ts:161-217 | outside `enforce` nothing happens; a pinned user and unreadable teams change nothing; otherwise the role, and only it, becomes what owner and team answers say, except that no admin is demoted, and the change is audited |
| TeamRoles.ResolvedRole | src/modules/github/github-team-role.service.ts:128-155 | a yes on leads makes a lead, a yes on developers or two noes a member, anything else tells nothing |
| TeamRoles.RoleService.HandleMembershipEvent | src/modules/github/github-team-role.service.ts:92-110 | re-derives a user iff enforcing, the team is one of the two role teams, the login is known and a token was minted; otherwise changes nothing |
| TeamRoles.RoleService.ReconcileAll | src/modules/github/github-team-role.service.ts:290-366 | completes iff enforcing, readable and not both rosters empty; then unarchived synced non-admins with a login are leads iff the case-folded login is on the lead roster, else members, nobody else changes, and exactly the changed users are audited, once each, and counted |
| TeamRoles.RoleService.SetAppRoleByConsole | src/modules/admin/admin.service.ts:187-236 | done iff the target exists, nobody demotes themselves and admin-tier changes come from a super-admin; then the role is pinned and audited, else nothing changes; whoever makes or unmakes an admin is a super-admin |
| TeamRoles.RoleService.ResetAppRoleToGithub | src/modules/admin/admin.service.ts:246-276 | resets the source and keeps the role, with the same admin-tier rule |
| TeamRoles.RoleService.GrantRole | src/modules/admin/admin.service.ts:128-151 | grants or changes another existing user's platform role |
| TeamRoles.RoleService.RevokeRole | src/modules/admin/admin.service.ts:153-180 | revokes another user's platform role, leaving the actor's alone and some super-admin if there was one |
| TeamRoles.RoleService.ListGithubTeamSyncedUsers | src/modules/admin/platform-admins.repository.ts:117-139 | exactly the unarchived users with a login whose source is GitHub, once each |
| RoleRuns.AutomaticStepIsSafe | src/modules/github/github-team-role.service.ts:161-217 | logins, webhooks and sweeps never change a pinned user's role and never make or unmake an admin among existing users |
| RoleRuns.SettleLogin | src/modules/auth/auth.service.ts:520-585 | a new account is inserted with its seeded role, an active one gets its login refreshed and its role synced, an archived one is left alone |
| RoleRuns.Perform | src/modules/admin/admin.service.ts:128-276 | every step of a run is what the services do, grants and revocations behind the super-admin guard |
| RoleRuns.FirstLoginRole | src/modules/github/github-team-role.service.ts:224-232 | a first login makes an organisation owner an admin, else, unless off, a yes on leads a lead, and everybody else a member |
| RoleRuns.NothingSyncsOutsideEnforce | src/modules/github/github-team-role.service.ts:161-217 | over any run of logins, webhooks and sweeps outside `enforce` no existing user's role or source changes |
| RoleRuns.AdminsChangeOnlyBySuperAdmin | src/modules/admin/admin.service.ts:187-276 | over any run, whether a user is an admin changes only by a super-admin's Console edit of that user, even after a reset |
| RoleRuns.PinnedRoleSurvives | src/modules/github/github-team-role.service.ts:161-217 | a pinned role survives every run without a Console edit of that user |
| RoleRuns.SuperAdminsNeverRunOut | src/modules/admin/admin.service.ts:128-180 | over any run through the guarded routes, some super-admin remains |
| RoleRuns.GrantCanDemoteTheLastSuperAdmin | src/modules/admin/admin.service.ts:128-151 | a grant by itself leaves no super-admin iff it re-grants the only one as a plain admin |
| RoleRuns.SweepAgreesWithSync | src/modules/github/github-team-role.service.ts:128-217 | for every lead answer the roster does not contradict and every developer answer, the exact condition under which sweep and sync leave a synced user alike |
| RoleRuns.UnreadableLeadIsDemoted | src/modules/github/github-team-role.service.ts:134-146 | a rostered lead whose lead check is unreadable and whose developer check is yes is demoted by the sync and reinstated by the sweep |
| RoleRuns.SecondSweepIsIdle | src/modules/github/github-team-role.service.ts:336-366 | a second sweep over the same rosters changes nobody |
| RoleRuns.EmptyLeadRosterDemotes | src/modules/github/github-team-role.service.ts:318-334 | with an empty lead roster and a non-empty developer roster every synced lead becomes a member, so roles are unchanged iff there was none |
| RoleRuns.ResetAdminStaysAdmin | src/modules/admin/admin.service.ts:237-276 | after a reset an admin stays one through any logins, webhooks and sweeps |
| DriftFindings.FindingsRepository.ReplaceActiveFindings | src/modules/projects/project-sync-findings.repository.ts:79-152 | each old row meets its stated fate and each finding without a listed row is inserted under a fresh id |
| DriftFindings.FindingsRepository.MarkStatus | src/modules/projects/project-sync-findings.repository.ts:64-77 | changes the status of one row only |
| DriftFindings.KeyIdentifies | src/modules/projects/project-sync-findings.repository.ts:154-156 | as codes have no colon, the key text identifies code and target |
| DriftFindings.ActiveKeysAreDetected | src/modules/projects/project-sync-findings.repository.ts:79-152 | the project's active keys become exactly the keys detected, even with repeated keys |
| DriftFindings.OldRowsAreKeptOrResolved | src/modules/projects/project-sync-findings.repository.ts:79-152 | detected rows survive under their ids, other active rows of the project are resolved, inactive rows and other projects are untouched |
| DriftFindings.InsertedRows | src/modules/projects/project-sync-findings.repository.ts:100-147 | exactly the findings whose key no active row of the project has are inserted, repeats included, in order and under fresh ids |
| DriftFindings.FirstRowIsRefreshed | src/modules/projects/project-sync-findings.repository.ts:100-120 | of the rows read with a detected key, the first gets the content of the last finding with that key and keeps everything else |
| DriftFindings.SecondRunIsIdle | src/modules/projects/project-sync-findings.repository.ts:79-152 | an immediate second detection inserts and resolves nothing, in whatever order rows are read |
| DriftFindings.StaleRowsAreTheRepeatedOnes | src/modules/projects/project-sync-findings.repository.ts:100-147 | every active row shows a detected content iff each kept row that is not the first of its key already did |
| DriftDetection.BuildFindings | src/modules/projects/project-drift.service.ts:97-211 | the pushes give project, target, empty-environment and failed-key findings, in that order |
| DriftDetection.DetectedIff | src/modules/projects/project-drift.service.ts:97-211 | each finding, by its code, says what is missing or failed, and everything missing or failed is found |
| DriftDetection.OnlyEnvKeysRepeat | src/modules/projects/project-drift.service.ts:97-211 | two findings of a detection share code and target only if both are failed environment keys |
| DriftDetection.OnlyEnvKeysShareAKey | src/modules/projects/project-drift.service.ts:97-211 | two findings of a detection share a key only if both are failed environment keys of one target |
| DriftDetection.SecondDetectionLeavesStaleRow | src/modules/projects/project-sync-findings.repository.ts:100-147 | keys A and B of one target fail, then only C: in either read order an active row keeps showing a key that no longer fails |
| DriftRuns.RepairService.Repair | src/modules/projects/project-drift-repair.service.ts:41-227 | which repairs are refused and why, by action and finding code; a completed one ignores or resolves its own finding, except a regenerated preview, a detached target also leaves all findings, and nothing else changes |
| DriftRuns.SettledStaysSettled | src/modules/projects/project-drift-repair.service.ts:60-227 | over any run of detections and repairs no finding leaves resolved or ignored |
| RunOrder.SameLengthSameOrder | src/modules/ci/ci-run-reports.repository.ts:112-125 | ids with equally many digits compare as text as they do as numbers |
| RunOrder.TextOrderAgrees | src/modules/ci/ci-run-reports.repository.ts:112-125 | text ranks a smaller id first iff it does not exceed what equally many leading digits of the larger spell |
| CiRuns.CiRunReports.Upsert | src/modules/ci/ci-run-reports.repository.ts:46-89 | a second report of one repository, run and stage refreshes the outcome and keeps owner, branch, commit and creation time; other rows are untouched |
| CiRuns.PageIsTextOrdered | src/modules/ci/ci-run-reports.repository.ts:99-171 | any page of either query is in descending text order with one row per repository, run and stage |
| CiRuns.RecentFirstIff | src/modules/ci/ci-run-reports.repository.ts:99-171 | a page is most recent run first iff text ranks its ids as numbers do |
| CiRuns.SameDigitsRecentFirst | src/modules/ci/ci-run-reports.repository.ts:99-171 | it is when all ids have equally many digits |
| CiRuns.NewestShownIff | src/modules/ci/ci-reports.service.ts:222-260 | on any page, a stage of a commit is shown from its greatest run id iff text ranks the run id of every older attempt first |
| CiRuns.AttemptOfRun | src/modules/ci/ci-reports.service.ts:222-260 | with repository names free of colons, the run id identifies the attempt among those of one stage |
| CiRuns.NineHidesTen | src/modules/ci/ci-run-reports.repository.ts:112-125 | on any page with runs 9 and 10 of one stage, run 10 is not the one shown |
| CiRuns.NineThenTen | src/modules/ci/ci-run-reports.repository.ts:112-125 | a page lists run 9 before run 10, never after it |
| CiRuns.GroupKeyIdentifiesCommit | src/modules/ci/ci-reports.service.ts:229-230 | the joined key identifies repository and commit |
| CiRuns.GroupIntoRuns | src/modules/ci/ci-reports.service.ts:205-309 | one run per repository and commit in first-seen order, each showing its folded group |
| CiRuns.ShownStages | src/modules/ci/ci-reports.service.ts:262-308 | a run shows three reports in stage order, each of the row taken or pending, under the run id of the furthest stage read |
| CiRuns.OverallIs | src/modules/ci/ci-reports.service.ts:311-338 | the overall status is partial iff a stage is pending, success iff all succeeded, else failure, running or cancelled in that order |
| CiRuns.GroupOfIsGroup | src/modules/ci/ci-reports.service.ts:222-260 | on every page the queries can return, a group has its first row's header, every stage read from the run id that is greatest as text, and the earliest creation time of those rows |
| CiRuns.SmallerLimitHidesOnly | src/modules/ci/ci-reports.service.ts:205-338 | a smaller limit shows a prefix of the runs, each stage as in the full list or pending, and the overall status as in the full list or partial |
| Subscriptions.SubscriptionsRepository.EnsureDefaultFreeSubscription | src/modules/persistence/subscriptions.repository.ts:58-102 | adds an active free row only for a user without any row and returns the latest |
| Subscriptions.SubscriptionsRepository.ActivateMonthlyPlan | src/modules/persistence/subscriptions.repository.ts:104-170 | cancels the user's active rows, adds the paid one, and all readers then see pro |
| Subscriptions.SubscriptionsRepository.CancelCurrent | src/modules/persistence/subscriptions.repository.ts:172-213 | cancels the user's latest row; a user without one gets the free row and is active |
| Subscriptions.LatestIsGreatest | src/modules/persistence/subscriptions.repository.ts:30-56 | the row read is the user's most recently created one |
| Subscriptions.BestIsUpdatedLast | src/modules/usage/usage-quota.service.ts:178-192 | of several active rows the quota check would read the one updated last, then created last |
| Subscriptions.ReadersAgree | src/modules/usage/usage-quota.service.ts:178-192 | at most one active row, which is the latest; page, entitlement query and quota resolver agree on active and on pro |
| Subscriptions.AgreeAfterAnyRun | src/modules/ci/ci-tokens.repository.ts:86-92 | the readers agree after every run of ensure, activate and cancel |
| Subscriptions.StandingIsShown | src/modules/persistence/subscriptions.repository.ts:58-213 | after every run a user is on the paid plan iff the user's own operations led there, and the latest row, the page and the quota resolver say so |
| ActivityFeed.List | src/modules/hierarchy/group-activity.repository.ts:29-121 | the assembled conditions, the extra row and the trim give one page of the filtered feed and a cursor iff more rows remain |
| ActivityFeed.WantedIff | src/modules/hierarchy/group-activity.repository.ts:33-95 | what each filter asks of an event, with the event codes of each activity type; an unknown type matches nothing |
| ActivityFeed.LimitIs | src/modules/hierarchy/group-activity.repository.ts:33 | fifty rows a page unless asked for between one and two hundred |
| ActivityFeed.NextPage | src/modules/hierarchy/group-activity.repository.ts:96-120 | the next page starts at or after the first row left out, exactly there iff that row is older than the millisecond of the page's last |
| ActivityFeed.FollowingGivesAll | src/modules/hierarchy/group-activity.repository.ts:96-120 | for any limits, and with ties ordered anew by each request, following the cursor ends and gives every filtered event as often as it is there iff no page ends between events of one millisecond |
| ActivityFeed.FollowedIsSorted | src/modules/hierarchy/group-activity.repository.ts:96-120 | the concatenated pages are newest first, whatever they miss |
| ActivityFeed.DistinctMillisecondsLoseNothing | src/modules/hierarchy/group-activity.repository.ts:29-121 | with at most one event a millisecond the pages are the whole filtered feed, newest first |
| ActivityFeed.SameMillisecondIsLost | src/modules/hierarchy/group-activity.repository.ts:96-120 | read one at a time, the second event of a millisecond is on no page, be it of the same instant or microseconds older |
| WebhookDeliveries.DeliveryTable.HandleWebhook | src/modules/github/github.service.ts:777-800 | one undisturbed handler: duplicates change nothing, the row ends processed iff the completion took effect, gone iff a release did, else claimed, and no other delivery's row changes |
| WebhookDeliveries.DeliveryTable.BeginWebhookDelivery | src/modules/github/github-installations.repository.ts:260-272 | claims exactly a delivery without a row |
| WebhookDeliveries.BeginSent | src/modules/github/github-installations.repository.ts:260-272 | one sending of a claim: held iff there was no row, sent again after a first connection error, else over |
| WebhookDeliveries.CompleteSent | src/modules/github/github-installations.repository.ts:274-281 | one sending of a completion: marks the row, ends the handler when answered, is sent again after a first connection error, else leads to the release |
| WebhookDeliveries.ReleaseSent | src/modules/github/github-installations.repository.ts:283-289 | one sending of a release: deletes a claimed row only and ends the handler unless its first sending met a connection error |
| WebhookRuns.ExclusiveUntilStolen | src/modules/github/github.service.ts:777-800 | in any interleaving with failures, resent statements and crashes a delivery has at most one claim holder, with its row, all along the run iff no release that had taken effect is sent again while somebody else holds the claim |
| WebhookRuns.StolenMeansTwoHolders | src/modules/database/database.service.ts:148-177 | after such a resent release the next delivery is claimed beside the holder |
| WebhookRuns.StolenClaimProcessesTwice | src/modules/database/database.service.ts:148-177 | a run in which an event is so processed twice although no completion was lost |
| WebhookRuns.MarkedOnce | src/modules/github/github-installations.repository.ts:274-281 | in every run without exception a row is marked processed once if it is, else never |
| WebhookRuns.ProcessedOncePerLostCompletion | src/modules/github/github.service.ts:777-800 | without a resent release that deletes a later claim, an event is processed at most once more often than a completion of it was lost |
| WebhookRuns.ProcessedStays | src/modules/github/github-installations.repository.ts:274-289 | once processed a delivery stays processed, even when a failed completion leads to a release |
| WebhookRuns.ProcessedIsFinal | src/modules/github/github.service.ts:777-800 | once processed, over any further run the row stays, nobody claims it, and the event is neither processed nor marked again: every later delivery is a duplicate |
| WebhookRuns.ReleasedFailureIsClaimable | src/modules/github/github-installations.repository.ts:283-289 | a failed delivery can be claimed again iff its release took effect on an unprocessed row |
| WebhookRuns.OrphanedClaimIsStuckIff | src/modules/github/github.service.ts:777-800 | a claim without holder stays for ever, its event not processed again, iff no handler is still to send an earlier release of it again |
| WebhookRuns.CrashOrphans | src/modules/github/github.service.ts:777-800 | a crash of the holder orphans the claim |
| WebhookRuns.LostClaimOrphans | src/modules/database/database.service.ts:148-177 | a claim that was stored but whose answer was lost is orphaned, however its second sending ends |
| LiveConnections.Pool.AcquireLiveClient | src/modules/database/database.service.ts:312-338 | gives a probed connection iff the first or, after a retryable probe failure, the second attempt is alive; failed ones are destroyed and nothing stays checked out on failure |
| LiveConnections.Pool.WithClient | src/modules/database/database.service.ts:285-310 | the callback runs at most once, only on a connection just probed, iff the first or the permitted second attempt is alive; at most two connections are checked out, each handed back exactly once, the idle set changing only by them and never getting one with a failed probe; and which failure is reported |
| LiveConnections.Query | src/modules/database/database.service.ts:148-177 | one retry exactly after a retryable failure; the statement takes effect twice iff a masked first effect is followed by a second |
| CaCert.NormalizeRestores | src/modules/database/postgres-ssl.config.ts:45-57 | any mixture of line breaks, literal backslash-n and stray blanks between canonical lines normalizes to the canonical text |
| CaCert.NormalizeIsIdempotent | src/modules/database/postgres-ssl.config.ts:45-57 | normalizing twice is normalizing once, for every input |
| Text.TrimPadded | src/modules/database/postgres-ssl.config.ts:45-57 | trimming a trimmed text padded with blanks gives it back |

## Left out

- Job text: `with`, `secrets`, permissions, steps and the YAML; a job is its needs and its condition, and the settings of its target are one opaque field.
- The access and quality workflow stages, and the other generated files.
- HTTP, OAuth, GitHub, Render, Vercel and Kafka calls, encryption and hashing: they are answers given as parameters.
- Concurrency of the sweep, the Console edits, the quota and the subscription operations: they read and then write without atomicity, and each is one atomic step here. The fleet capacity, documented as soft, is absent.
- Statements resent after a lost answer, other than those of webhook deliveries: elsewhere each statement takes effect once.
- Account deletion, archival, restore and starting fresh in the role model; whether a login is archived is a field that does not change.
- Members provisioning on another owner's quota, access checks, and audit rows other than those of roles.
- Creating deployments, `aggregateStatus`, `renderResultMetadata` and the default image address: a provisioned target is only failed or not.
- `validateEnvText`, `listEnvMetadata` and the usage summary.
- The plan catalogue seeding behind the subscriptions, and the prices.
- Ingesting a CI report: the conclusion's mapping to a status, the cap on raw logs, and finding the owner.
- Error classification for callers; whether an error is retryable is a flag of the failure.
- Upper case outside ASCII: logins, team names and stage suffixes are folded for the letters A to Z.
- CrossLink.EnvStore.CrossLinkServiceUrls: a provider's answer says only which keys it stored; its per-key error texts and the metadata rows are not modelled.
- EnvKeys.ProvisioningRespectsQuota: assumes every requested key is reported back exactly once, as the provider clients do.
- TeamRoles.RoleService.FindUserIdByGithubLogin: with several users of one login any of them may be returned, as the query leaves it open.
- DriftFindings.FindingsRepository.FindActiveByProject: rows are listed in any order, because ties of the detection time leave it open; what follows holds for all orders.
- CiRuns.GroupIntoRuns: links and messages are one detail field, and rows of one run id come in any stage order.
- Subscriptions.AgreeAfterAnyRun: creation times strictly increase; the entitlement query's gate and internal-user exceptions are not part of it.
- ActivityFeed.FollowingGivesAll: the table does not change between requests, and a client sends the cursor back as it got it.
- WebhookRuns.ExclusiveUntilStolen: a sending takes effect, if at all, before its answer or error is seen; unhandled events and signature checks are absent, and processing either succeeds or fails.
- CrossLinkFrame.KeptIff: Vercel's own identity of a variable is taken to be its key and its target; variables set for several targets at once by hand are not modelled.
- EnvKeys.EnvVarsService.DeleteEnvMetadata: what the provider removes is not modelled, so a key removed for one environment of a Render service is not followed to the others.
- RunOrder.TextOrderAgrees: digits are compared by their codes, as every collation orders them.
