/** What a user asks to be provisioned. */
module ProvisioningRequest {
  import opened Sequences
  import opened Providers

  datatype Slot = Backend | Frontend | Standalone

  datatype Ownership = Byo | Managed

  datatype DeployMethod = ManagedImage | ByoImage | NativeGit | ExistingService

  datatype Environment = TestEnv | UatEnv | ProductionEnv

  datatype Variable = Variable(key: string, value: string)

  datatype EnvSet = EnvSet(environment: Environment, vars: seq<Variable>)

  /** `settings` stands for the fields that are only passed on. */
  datatype Target = Target(slot: Slot, provider: Provider, ownership: Ownership, deployMethod: Option<DeployMethod>,
                           branchName: Option<string>, projectName: Option<string>,
                           renderEnvironment: Option<Environment>, env: seq<EnvSet>, settings: string)

  datatype AppliesTo = AllTargets | SelectedTargets

  datatype VariableGroup = VariableGroup(provider: Option<Provider>, appliesTo: AppliesTo,
                                         targetBranches: seq<string>, env: seq<EnvSet>)

  datatype Request = Request(enabled: bool, sharedEnv: seq<EnvSet>, variableGroups: seq<VariableGroup>,
                             targets: seq<Target>)
}
