/** Repairing findings (`repair`), and runs of detections and repairs. */
module DriftRuns {
  import opened Sequences
  import opened DriftFindings
  import opened DriftDetection

  // ----- Repair -----

  datatype Action = RegeneratePreview | CreateUpdatePr | RotateToken | DetachTarget | MarkIgnored

  datatype Repair = NotFound | NotActive | Disabled | Unsupported | EffectFailed | Completed

  const WORKFLOW_OUTDATED := "central_workflow_ref_outdated"
  const TARGET_MISSING_LIVE := "provider_target_missing_live"

  const LIVE_CODES := ["github_repo_unreachable", "github_secret_missing", "provider_env_key_missing_live", TARGET_MISSING_LIVE]

  /** The codes an action accepts; none for ignoring, which accepts all. */
  function Supported(action: Action): seq<string> {
    match action
    case RotateToken => [TOKEN_MISSING, TOKEN_REVOKED]
    case DetachTarget => [TARGET_MISSING, TARGET_MISSING_LIVE]
    case _ => [WORKFLOW_MISSING, WORKFLOW_OUTDATED]
  }

  /** The findings an action can mend: any that needs no live provider for ignoring, else those
      of its codes, for detaching only with a target. */
  predicate Mends(action: Action, f: Finding) {
    && f.code !in ["github_repo_unreachable", "github_secret_missing", "provider_env_key_missing_live", "provider_target_missing_live"]
    && match action
       case MarkIgnored => true
       case RotateToken => f.code == "ci_token_missing" || f.code == "ci_token_revoked"
       case DetachTarget => f.code == "deployment_target_metadata_missing" && f.targetId.GetOr("") != ""
       case _ => f.code == "workflow_files_missing" || f.code == "central_workflow_ref_outdated"
  }

  lemma MendsIff(action: Action, f: Finding)
    ensures Mends(action, f) <==>
            f.code !in LIVE_CODES
            && (action == MarkIgnored || (f.code in Supported(action) && (action == DetachTarget ==> f.targetId.GetOr("") != "")))
  {
  }

  /** `effect`: did the action's outside effect succeed; `prEnabled`: may pull requests be opened. */
  function RepairResult(t: Table, project: string, id: nat, action: Action, enabled: bool, prEnabled: bool, effect: bool): Repair {
    if !enabled then Disabled
    else if id !in t || t[id].project != project then NotFound
    else if t[id].status != Active then NotActive
    else if t[id].finding.code in LIVE_CODES then Disabled
    else if action == MarkIgnored then Completed
    else if t[id].finding.code !in Supported(action) then Unsupported
    else if action == DetachTarget && t[id].finding.targetId.GetOr("") == "" then Unsupported
    else if action == CreateUpdatePr && !prEnabled then Disabled
    else if !effect then EffectFailed
    else Completed
  }

  /** ON DELETE SET NULL: findings of a deleted target lose their target. */
  function WithoutTarget(t: Table, target: string): Table {
    map id | id in t :: if t[id].finding.targetId == Some(target) then t[id].(finding := t[id].finding.(targetId := None)) else t[id]
  }

  /** A completed repair ignores or resolves its own finding, except that regenerating a
      preview leaves it active; detaching also drops the target from every finding. */
  function AfterRepair(t: Table, id: nat, action: Action): Table
    requires id in t
  {
    match action
    case RegeneratePreview => t
    case MarkIgnored => t[id := t[id].(status := Ignored)]
    case DetachTarget =>
      var detached := WithoutTarget(t, t[id].finding.targetId.GetOr(""));
      detached[id := detached[id].(status := Resolved)]
    case _ => t[id := t[id].(status := Resolved)]
  }

  class RepairService {
    var repository: FindingsRepository

    constructor (repository: FindingsRepository)
      ensures this.repository == repository
    {
      this.repository := repository;
    }

    method Repair(project: string, id: nat, action: Action, enabled: bool, prEnabled: bool, effect: bool) returns (result: Repair)
      modifies repository`table
      ensures result == RepairResult(old(repository.table), project, id, action, enabled, prEnabled, effect)
      ensures repository.table == if result == Completed then AfterRepair(old(repository.table), id, action)
                                  else old(repository.table)
      ensures var t := old(repository.table);
              var own := id in t && t[id].project == project;
              var mends := own && t[id].status == Active && Mends(action, t[id].finding);
              var refused := action == CreateUpdatePr && !prEnabled;
              && (result == NotFound <==> enabled && !own)
              && (result == NotActive <==> enabled && own && t[id].status != Active)
              && (result == Completed <==> enabled && mends && !refused && (effect || action == MarkIgnored))
              && (result == EffectFailed <==> enabled && mends && !refused && !effect && action != MarkIgnored)
              && (enabled && mends && refused ==> result == Disabled) && (!enabled ==> result == Disabled)
              && (result == Unsupported ==> enabled && own && t[id].status == Active && !mends)
      ensures repository.table.Keys == old(repository.table).Keys
      ensures result != Completed ==> repository.table == old(repository.table)
      ensures result == Completed ==> forall i :: i in old(repository.table) ==>
                var r, r' := old(repository.table)[i], repository.table[i];
                && r'.project == r.project && r'.finding.code == r.finding.code && r'.finding.content == r.finding.content
                && r'.status == (if i != id || action == RegeneratePreview then r.status
                                 else if action == MarkIgnored then Ignored else Resolved)
                && r'.finding.targetId ==
                     if action == DetachTarget && r.finding.targetId == old(repository.table)[id].finding.targetId then None
                     else r.finding.targetId
    {
      if !enabled {
        return Disabled;
      }
      var t := repository.table;
      if id !in t || t[id].project != project {
        return NotFound;
      }
      var finding := t[id].finding;
      MendsIff(action, finding);
      if t[id].status != Active {
        return NotActive;
      }
      if finding.code in LIVE_CODES {
        return Disabled;
      }
      if action == MarkIgnored {
        repository.MarkStatus(id, Ignored);
        return Completed;
      }
      if finding.code !in Supported(action) || (action == DetachTarget && finding.targetId.GetOr("") == "") {
        return Unsupported;
      }
      if action == CreateUpdatePr && !prEnabled {
        return Disabled;
      }
      if !effect {
        return EffectFailed;
      }
      if action == DetachTarget {
        repository.table := WithoutTarget(t, finding.targetId.GetOr(""));
      }
      if action != RegeneratePreview {
        repository.MarkStatus(id, Resolved);
      }
      result := Completed;
    }
  }

  // ----- Runs -----

  /** A detection with the order its active rows happened to be read in, or a repair. */
  datatype Operation =
    | Detect(project: string, findings: seq<Finding>, listing: seq<nat>)
    | Mend(project: string, id: nat, action: Action, enabled: bool, prEnabled: bool, effect: bool)

  datatype Store = Store(table: Table, nextId: nat)

  function Apply(s: Store, op: Operation): Store {
    match op
    case Detect(project, fs, listing) =>
      if (forall id :: id in listing ==> id in s.table) then
        Store(Reconciled(s.table, listing, project, KeySet(fs), fs, s.nextId),
              s.nextId + |Missing(s.table, listing, fs)|)
      else s
    case Mend(project, id, action, enabled, prEnabled, effect) =>
      if RepairResult(s.table, project, id, action, enabled, prEnabled, effect) == Completed
      then s.(table := AfterRepair(s.table, id, action)) else s
  }

  ghost predicate Proper(s: Store, op: Operation) {
    op.Detect? ==> Lists(op.listing, s.table, op.project)
  }

  function Run(s: Store, ops: seq<Operation>): Store {
    if ops == [] then s else Apply(Run(s, ops[..|ops| - 1]), ops[|ops| - 1])
  }

  ghost predicate AllProper(s: Store, ops: seq<Operation>) {
    forall i :: 0 <= i < |ops| ==> Proper(Run(s, ops[..i]), ops[i])
  }

  ghost predicate FreshIds(s: Store) {
    forall id :: id in s.table ==> id < s.nextId
  }

  lemma StepKeepsSettled(s: Store, op: Operation, id: nat)
    requires FreshIds(s) && Proper(s, op) && id in s.table && s.table[id].status != Active
    ensures FreshIds(Apply(s, op)) && id in Apply(s, op).table && Apply(s, op).table[id].status == s.table[id].status
  {
  }

  /** Over any run of detections and repairs, a resolved or ignored finding stays so. */
  lemma {:induction false} SettledStaysSettled(s: Store, ops: seq<Operation>, id: nat)
    requires FreshIds(s) && AllProper(s, ops) && id in s.table && s.table[id].status != Active
    ensures FreshIds(Run(s, ops)) && id in Run(s, ops).table && Run(s, ops).table[id].status == s.table[id].status
  {
    if ops != [] {
      var n := |ops| - 1;
      var init := ops[..n];
      forall i | 0 <= i < n ensures Proper(Run(s, init[..i]), init[i]) {
        assert init[..i] == ops[..i] && Proper(Run(s, ops[..i]), ops[i]);
      }
      SettledStaysSettled(s, init, id);
      StepKeepsSettled(Run(s, init), ops[n], id);
    }
  }
}
