/** The environment keys AlphaCI tracks, and the quota on them: `provisionEnvVars`,
    `deleteEnvMetadata`, the metadata table and `assertWithinLimit`. */
module EnvKeys {
  import opened Sequences
  import opened ProvisioningRequest
  import EnvSets

  /** The unique key of the metadata table: deployment target, environment, key. */
  type RowKey = (string, Environment, string)

  datatype Row = Row(project: string, removed: bool)

  type Rows = map<RowKey, Row>

  datatype Plan = Free | Pro

  /** The owner's quota situation, apart from the count. */
  datatype Quota = Quota(enabled: bool, isInternal: bool, plan: Plan)

  function EnvKeyLimit(p: Plan): nat {
    match p case Free => 25 case Pro => 500
  }

  predicate IsActive(rows: Rows, k: RowKey) {
    k in rows && !rows[k].removed
  }

  function ActiveKeys(rows: Rows, t: string, e: Environment): set<string> {
    set k | k in rows && k.0 == t && k.1 == e && IsActive(rows, k) :: k.2
  }

  /** The active rows of the projects a user owns. */
  function OwnedRows(rows: Rows, owners: map<string, string>, user: string): set<RowKey> {
    set k | k in rows && IsActive(rows, k) && rows[k].project in owners && owners[rows[k].project] == user
  }

  function Total(rows: Rows, owners: map<string, string>, user: string): nat {
    |OwnedRows(rows, owners, user)|
  }

  function SetOf(keys: seq<string>): set<string> {
    set k | k in keys
  }

  function Slots(t: string, e: Environment, keys: set<string>): (r: set<RowKey>)
    ensures forall k :: k in r <==> k.0 == t && k.1 == e && k.2 in keys
  {
    set key | key in keys :: (t, e, key)
  }

  /** INSERT … ON CONFLICT DO UPDATE: missing rows are inserted, removed ones revived. */
  function Upserted(rows: Rows, project: string, t: string, e: Environment, keys: set<string>): Rows {
    map k | k in rows.Keys + Slots(t, e, keys) ::
      if k !in Slots(t, e, keys) then rows[k]
      else Row(if k in rows then rows[k].project else project, false)
  }

  function Removed(rows: Rows, k: RowKey): Rows
    requires k in rows
  {
    rows[k := rows[k].(removed := true)]
  }

  /** Rows belong to the project of their deployment target. */
  ghost predicate ValidRows(rows: Rows, targets: map<string, string>) {
    forall k :: k in rows ==> k.0 in targets && rows[k].project == targets[k.0]
  }

  predicate WithinLimit(quota: Quota, current: nat, increment: nat) {
    !quota.enabled || quota.isInternal || current + increment <= EnvKeyLimit(quota.plan)
  }

  /** The check before a request: the requested keys that are not active must fit. */
  predicate QuotaAllows(rows: Rows, owners: map<string, string>, quota: Quota, user: string, t: string, e: Environment,
                        vars: seq<Variable>)
  {
    var known := SetOf(EnvSets.Keys(vars)) * ActiveKeys(rows, t, e);
    |vars| <= |known| || WithinLimit(quota, Total(rows, owners, user), |vars| - |known|)
  }

  // ----- Counting -----

  lemma {:induction false} SlotsSize(t: string, e: Environment, keys: set<string>)
    ensures |Slots(t, e, keys)| == |keys|
  {
    if keys != {} {
      var key :| key in keys;
      SlotsSize(t, e, keys - {key});
      assert Slots(t, e, keys) == Slots(t, e, keys - {key}) + {(t, e, key)};
    }
  }

  lemma {:induction false} KeysOfDistinct(vars: seq<Variable>, keys: set<string>)
    requires NoRepeats(EnvSets.Keys(vars)) && keys == SetOf(EnvSets.Keys(vars))
    ensures |keys| == |vars|
  {
    if vars != [] {
      var init, last := vars[..|vars| - 1], vars[|vars| - 1];
      assert EnvSets.Keys(vars) == EnvSets.Keys(init) + [last.key];
      var ks := EnvSets.Keys(vars);
      forall i, j | 0 <= i < j < |init| ensures EnvSets.Keys(init)[i] != EnvSets.Keys(init)[j] {
        assert ks[i] != ks[j];
      }
      forall i | 0 <= i < |init| ensures EnvSets.Keys(init)[i] != last.key {
        assert ks[i] != ks[|init|];
      }
      KeysOfDistinct(init, keys - {last.key});
    }
  }

  lemma UpsertKeepsValid(rows: Rows, targets: map<string, string>, t: string, e: Environment, keys: set<string>)
    requires ValidRows(rows, targets) && t in targets
    ensures ValidRows(Upserted(rows, targets[t], t, e, keys), targets)
  {
  }

  /** Row by row: the batch's slots become active under their own project, or the given one
      if new; all other rows stay. */
  lemma UpsertedRow(rows: Rows, project: string, t: string, e: Environment, keys: set<string>, k: RowKey)
    ensures var rows' := Upserted(rows, project, t, e, keys);
            if k.0 == t && k.1 == e && k.2 in keys
            then k in rows' && rows'[k] == Row(if k in rows then rows[k].project else project, false)
            else (k in rows' <==> k in rows) && (k in rows ==> rows'[k] == rows[k])
  {
  }

  lemma UpsertActivates(rows: Rows, project: string, t: string, e: Environment, keys: set<string>)
    ensures ActiveKeys(Upserted(rows, project, t, e, keys), t, e) == ActiveKeys(rows, t, e) + keys
  {
    var rows' := Upserted(rows, project, t, e, keys);
    forall key | key in keys || key in ActiveKeys(rows, t, e) ensures key in ActiveKeys(rows', t, e) {
      assert IsActive(rows', (t, e, key));
    }
  }

  lemma UpsertOwned(rows: Rows, targets: map<string, string>, owners: map<string, string>, user: string,
                    t: string, e: Environment, keys: set<string>)
    requires ValidRows(rows, targets) && t in targets && targets[t] in owners && owners[targets[t]] == user
    ensures var added := Slots(t, e, keys - ActiveKeys(rows, t, e));
            && OwnedRows(Upserted(rows, targets[t], t, e, keys), owners, user) == OwnedRows(rows, owners, user) + added
            && OwnedRows(rows, owners, user) !! added
  {
  }

  /** A batch upsert adds exactly the keys that were not active, revived ones included. */
  lemma UpsertAdds(rows: Rows, targets: map<string, string>, owners: map<string, string>, user: string,
                   t: string, e: Environment, keys: set<string>)
    requires ValidRows(rows, targets) && t in targets && targets[t] in owners && owners[targets[t]] == user
    ensures Total(Upserted(rows, targets[t], t, e, keys), owners, user) ==
            Total(rows, owners, user) + |keys - ActiveKeys(rows, t, e)|
  {
    UpsertOwned(rows, targets, owners, user, t, e, keys);
    SlotsSize(t, e, keys - ActiveKeys(rows, t, e));
  }

  /** Other users' totals are unaffected. */
  lemma UpsertSpares(rows: Rows, targets: map<string, string>, owners: map<string, string>, user: string,
                     t: string, e: Environment, keys: set<string>)
    requires ValidRows(rows, targets) && t in targets && (targets[t] in owners ==> owners[targets[t]] != user)
    ensures OwnedRows(Upserted(rows, targets[t], t, e, keys), owners, user) == OwnedRows(rows, owners, user)
  {
  }

  // ----- The service over its table -----

  datatype Outcome = Provisioned | Refused(verdict: EnvSets.Verdict) | TargetNotFound | QuotaExceeded
                   | ProviderFailed | StoreFailed

  /** What `validateVars` accepts. */
  ghost predicate Acceptable(vars: seq<Variable>) {
    vars != [] && forall i :: 0 <= i < |vars| ==> EnvSets.AcceptableAt(vars, i)
  }

  lemma AcceptableKeysDiffer(vars: seq<Variable>)
    requires Acceptable(vars)
    ensures NoRepeats(EnvSets.Keys(vars))
  {
    var ks := EnvSets.Keys(vars);
    forall i, j | 0 <= i < j < |ks| ensures ks[i] != ks[j] {
      assert EnvSets.AcceptableAt(vars, j) && EnvSets.Keys(vars[..j])[i] == ks[i];
    }
  }

  lemma UpsertOneMore(rows: Rows, project: string, t: string, e: Environment, keys: set<string>, key: string)
    requires key !in keys
    ensures var next, k := Upserted(rows, project, t, e, keys), (t, e, key);
            next[k := Row(if k in next then next[k].project else project, false)] == Upserted(rows, project, t, e, keys + {key})
  {
  }

  class EnvVarsService {
    var rows: Rows
    const targets: map<string, string>
    const owners: map<string, string>

    constructor (targets: map<string, string>, owners: map<string, string>)
      ensures this.targets == targets && this.owners == owners && rows == map[]
    {
      this.targets, this.owners, rows := targets, owners, map[];
    }

    method CountExistingActiveKeys(t: string, e: Environment, keys: set<string>) returns (count: nat)
      ensures count == |keys * ActiveKeys(rows, t, e)|
    {
      count := |keys * ActiveKeys(rows, t, e)|;
    }

    /** One statement: a batch naming a key twice fails as a whole. */
    method UpsertEnvMetadataBatch(project: string, t: string, e: Environment, entries: seq<string>) returns (ok: bool)
      modifies this
      ensures ok <==> NoRepeats(entries)
      ensures rows == if ok then Upserted(old(rows), project, t, e, SetOf(entries)) else old(rows)
    {
      ghost var before := rows;
      var next := rows;
      for i := 0 to |entries|
        invariant rows == before
        invariant NoRepeats(entries[..i])
        invariant next == Upserted(before, project, t, e, SetOf(entries[..i]))
      {
        if entries[i] in entries[..i] {
          assert !NoRepeats(entries);
          return false;
        }
        var k := (t, e, entries[i]);
        UpsertOneMore(before, project, t, e, SetOf(entries[..i]), entries[i]);
        next := next[k := Row(if k in next then next[k].project else project, false)];
        assert entries[..i + 1] == entries[..i] + [entries[i]];
        assert SetOf(entries[..i + 1]) == SetOf(entries[..i]) + {entries[i]};
      }
      assert entries[..|entries|] == entries;
      rows := next;
      ok := true;
    }

    /** `reported` is the provider's answer: none if the call failed, else every key it
        reports as provisioned or failed.  The request succeeds exactly when it is
        acceptable, the target exists, the quota allows the new keys, and the provider
        answered without naming a key twice; otherwise the table is untouched. */
    method ProvisionEnvVars(user: string, quota: Quota, t: string, e: Environment, vars: seq<Variable>,
                            reported: Option<seq<string>>) returns (outcome: Outcome)
      modifies this
      ensures outcome.Provisioned? <==>
                Acceptable(vars) && t in targets && QuotaAllows(old(rows), owners, quota, user, t, e, vars)
                && reported.Some? && NoRepeats(reported.value)
      ensures outcome == QuotaExceeded <==>
                Acceptable(vars) && t in targets && quota.enabled && !quota.isInternal
                && var limit := if quota.plan == Pro then 500 else 25;
                   var news := |vars| - |SetOf(EnvSets.Keys(vars)) * ActiveKeys(old(rows), t, e)|;
                   news > 0 && Total(old(rows), owners, user) + news > limit
      ensures rows == if outcome.Provisioned? then Upserted(old(rows), targets[t], t, e, SetOf(reported.value))
                      else old(rows)
    {
      var verdict := EnvSets.ValidateVars(vars);
      if !verdict.Accepted? {
        return Refused(verdict);
      }
      if t !in targets {
        return TargetNotFound;
      }
      var existingKeyCount := CountExistingActiveKeys(t, e, SetOf(EnvSets.Keys(vars)));
      var newKeyCount := |vars| - existingKeyCount;
      if newKeyCount > 0 {
        var current := Total(rows, owners, user);
        if quota.enabled && !quota.isInternal && current + newKeyCount > EnvKeyLimit(quota.plan) {
          return QuotaExceeded;
        }
      }
      if reported.None? {
        return ProviderFailed;
      }
      var ok := UpsertEnvMetadataBatch(targets[t], t, e, reported.value);
      outcome := if ok then Provisioned else StoreFailed;
    }

    method DeleteEnvMetadata(k: RowKey, providerAgrees: bool) returns (removed: bool)
      modifies this
      ensures removed <==> old(IsActive(rows, k)) && providerAgrees
      ensures rows == if removed then Removed(old(rows), k) else old(rows)
      ensures removed ==> k in old(rows) && !old(rows)[k].removed
                          && rows == old(rows)[k := Row(old(rows)[k].project, true)]
    {
      if k !in rows || rows[k].removed || !providerAgrees {
        return false;
      }
      rows := rows[k := rows[k].(removed := true)];
      removed := true;
    }
  }

  // ----- What a successful request does to the owner's total -----

  /** With every requested key reported back, the owner's total grows by the number of
      requested keys that were not active, and is never moved above the plan limit. */
  lemma ProvisioningRespectsQuota(rows: Rows, targets: map<string, string>, owners: map<string, string>, user: string,
                                  quota: Quota, t: string, e: Environment, vars: seq<Variable>, reported: set<string>)
    requires ValidRows(rows, targets) && t in targets && targets[t] in owners && owners[targets[t]] == user
    requires Acceptable(vars) && reported == SetOf(EnvSets.Keys(vars))
    requires QuotaAllows(rows, owners, quota, user, t, e, vars)
    ensures var before, after := Total(rows, owners, user), Total(Upserted(rows, targets[t], t, e, reported), owners, user);
            && after == before + |vars| - |reported * ActiveKeys(rows, t, e)|
            && (after > before && quota.enabled && !quota.isInternal ==> after <= if quota.plan == Pro then 500 else 25)
  {
    UpsertAdds(rows, targets, owners, user, t, e, reported);
    AcceptableKeysDiffer(vars);
    KeysOfDistinct(vars, reported);
    var known := reported * ActiveKeys(rows, t, e);
    assert reported == known + (reported - ActiveKeys(rows, t, e));
    assert |reported| == |known| + |reported - ActiveKeys(rows, t, e)|;
  }

  /** Removing a key frees exactly one place, and provisioning it again takes it back. */
  lemma RemovalIsUndone(rows: Rows, targets: map<string, string>, owners: map<string, string>, user: string, k: RowKey)
    requires ValidRows(rows, targets) && IsActive(rows, k)
    requires rows[k].project in owners && owners[rows[k].project] == user
    ensures ValidRows(Removed(rows, k), targets)
    ensures Total(Removed(rows, k), owners, user) == Total(rows, owners, user) - 1
    ensures Upserted(Removed(rows, k), targets[k.0], k.0, k.1, {k.2}) == rows
  {
    assert OwnedRows(Removed(rows, k), owners, user) == OwnedRows(rows, owners, user) - {k};
    var again := Upserted(Removed(rows, k), targets[k.0], k.0, k.1, {k.2});
    assert k in Slots(k.0, k.1, {k.2});
    assert again.Keys == rows.Keys;
    forall j | j in rows ensures again[j] == rows[j] {
      assert j in Slots(k.0, k.1, {k.2}) <==> j == k;
    }
  }

  // ----- Whole runs -----

  /** A request for an own target whose keys are all reported back, or a removal. */
  datatype Operation = Provision(user: string, t: string, e: Environment, vars: seq<Variable>) | Remove(k: RowKey)

  /** Who owns what, and everybody's quota situation, which a run does not change. */
  datatype World = World(targets: map<string, string>, owners: map<string, string>, quotas: string -> Quota)

  ghost function Apply(w: World, rows: Rows, op: Operation): Rows {
    match op
    case Provision(user, t, e, vars) =>
      if Acceptable(vars) && t in w.targets && w.targets[t] in w.owners && w.owners[w.targets[t]] == user
         && QuotaAllows(rows, w.owners, w.quotas(user), user, t, e, vars)
      then Upserted(rows, w.targets[t], t, e, SetOf(EnvSets.Keys(vars)))
      else rows
    case Remove(k) => if IsActive(rows, k) then Removed(rows, k) else rows
  }

  ghost function Run(w: World, rows: Rows, ops: seq<Operation>): Rows {
    if ops == [] then rows else Apply(w, Run(w, rows, ops[..|ops| - 1]), ops[|ops| - 1])
  }

  lemma RemovalShrinks(rows: Rows, owners: map<string, string>, user: string, k: RowKey)
    requires k in rows
    ensures Total(Removed(rows, k), owners, user) <= Total(rows, owners, user)
  {
    Fewer(OwnedRows(Removed(rows, k), owners, user), OwnedRows(rows, owners, user));
  }

  lemma Fewer(a: set<RowKey>, b: set<RowKey>)
    requires a <= b
    ensures |a| <= |b|
  {
    assert |b| == |a| + |b - a| by { assert b == a + (b - a); }
  }

  /** No step raises a total above the limit of its user's plan. */
  lemma StepStaysWithinLimit(w: World, rows: Rows, op: Operation, user: string)
    requires ValidRows(rows, w.targets) && w.quotas(user).enabled && !w.quotas(user).isInternal
    ensures var rows' := Apply(w, rows, op);
            && ValidRows(rows', w.targets)
            && (Total(rows', w.owners, user) <= Total(rows, w.owners, user)
                || Total(rows', w.owners, user) <= EnvKeyLimit(w.quotas(user).plan))
  {
    match op {
      case Remove(k) =>
        if k in rows {
          RemovalShrinks(rows, w.owners, user, k);
        }
      case Provision(u, t, e, vars) =>
        if Apply(w, rows, op) != rows {
          UpsertKeepsValid(rows, w.targets, t, e, SetOf(EnvSets.Keys(vars)));
          if u == user {
            ProvisioningRespectsQuota(rows, w.targets, w.owners, u, w.quotas(u), t, e, vars, SetOf(EnvSets.Keys(vars)));
          } else {
            UpsertSpares(rows, w.targets, w.owners, user, t, e, SetOf(EnvSets.Keys(vars)));
          }
        }
    }
  }

  /** Over any run of requests and removals by anybody, an owner within the limit of a fixed
      plan stays within it, and one above it never rises further. */
  lemma {:induction false} TotalStaysWithinLimit(w: World, rows: Rows, ops: seq<Operation>, user: string)
    requires ValidRows(rows, w.targets) && w.quotas(user).enabled && !w.quotas(user).isInternal
    ensures var limit, start := if w.quotas(user).plan == Pro then 500 else 25, Total(rows, w.owners, user);
            && ValidRows(Run(w, rows, ops), w.targets)
            && Total(Run(w, rows, ops), w.owners, user) <= if start <= limit then limit else start
  {
    if ops != [] {
      var n := |ops| - 1;
      TotalStaysWithinLimit(w, rows, ops[..n], user);
      StepStaysWithinLimit(w, Run(w, rows, ops[..n]), ops[n], user);
    }
  }
}
