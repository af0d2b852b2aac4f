/** Detecting drift: `buildFindings`, which of its findings share a key, and what that
    leaves behind. */
module DriftDetection {
  import opened Sequences
  import opened DriftFindings

  // ----- Detection -----

  datatype CiToken = NoToken | RevokedToken | ActiveToken

  /** What is stored of a project and of its targets; empty strings count as missing. */
  datatype Project = Project(repoFullName: string, repoUrl: string, workflowPath: string, workflowFiles: nat)

  datatype Target = Target(id: string, branchName: string, providerProjectId: string, providerProjectName: string,
                           byo: bool, connectionId: string)

  datatype EnvKey = EnvKey(targetId: string, environment: string, key: string, failed: bool)

  const REPO_MISSING := "project_repo_metadata_missing"
  const WORKFLOW_MISSING := "workflow_files_missing"
  const TOKEN_MISSING := "ci_token_missing"
  const TOKEN_REVOKED := "ci_token_revoked"
  const BRANCH_MISSING := "branch_metadata_missing"
  const TARGET_MISSING := "deployment_target_metadata_missing"
  const CONNECTION_MISSING := "provider_connection_metadata_unavailable"
  const ENV_EMPTY := "env_metadata_empty"
  const ENV_KEY_FAILED := "provider_env_key_failed"

  lemma CodesDiffer()
    ensures NoRepeats([REPO_MISSING, WORKFLOW_MISSING, TOKEN_MISSING, TOKEN_REVOKED, ENV_EMPTY, ENV_KEY_FAILED])
    ensures NoRepeats([BRANCH_MISSING, TARGET_MISSING, CONNECTION_MISSING, ENV_KEY_FAILED])
  {
  }

  function OfProject(code: string): Finding {
    Finding(code, None, "")
  }

  function OfTarget(code: string, t: Target): Finding {
    Finding(code, Some(t.id), "")
  }

  function OfEnvKey(e: EnvKey): Finding {
    Finding(ENV_KEY_FAILED, Some(e.targetId), e.key + "@" + e.environment)
  }

  function When(condition: bool, f: Finding): seq<Finding> {
    if condition then [f] else []
  }

  function ProjectFindings(p: Project, token: CiToken): seq<Finding> {
    When(p.repoFullName == "" || p.repoUrl == "", OfProject(REPO_MISSING))
    + When(p.workflowPath == "" && p.workflowFiles == 0, OfProject(WORKFLOW_MISSING))
    + When(token == NoToken, OfProject(TOKEN_MISSING)) + When(token == RevokedToken, OfProject(TOKEN_REVOKED))
  }

  function TargetFindings(t: Target): seq<Finding> {
    When(t.branchName == "", OfTarget(BRANCH_MISSING, t))
    + When(t.providerProjectId == "" || t.providerProjectName == "", OfTarget(TARGET_MISSING, t))
    + When(t.byo && t.connectionId == "", OfTarget(CONNECTION_MISSING, t))
  }

  function AllTargetFindings(ts: seq<Target>): seq<Finding> {
    if ts == [] then [] else AllTargetFindings(ts[..|ts| - 1]) + TargetFindings(ts[|ts| - 1])
  }

  function EnvKeyFindings(es: seq<EnvKey>): seq<Finding> {
    if es == [] then []
    else EnvKeyFindings(es[..|es| - 1]) + When(es[|es| - 1].failed, OfEnvKey(es[|es| - 1]))
  }

  function Detected(p: Project, ts: seq<Target>, es: seq<EnvKey>, token: CiToken): seq<Finding> {
    ProjectFindings(p, token) + AllTargetFindings(ts) + When(ts != [] && es == [], OfProject(ENV_EMPTY)) + EnvKeyFindings(es)
  }

  method PushIf(fs: seq<Finding>, condition: bool, f: Finding) returns (fs': seq<Finding>)
    ensures fs' == fs + When(condition, f)
  {
    fs' := if condition then fs + [f] else fs;
    assert fs + [] == fs;
  }

  method PushTargetFindings(fs: seq<Finding>, t: Target) returns (fs': seq<Finding>)
    ensures fs' == fs + TargetFindings(t)
  {
    fs' := PushIf(fs, t.branchName == "", OfTarget(BRANCH_MISSING, t));
    fs' := PushIf(fs', t.providerProjectId == "" || t.providerProjectName == "", OfTarget(TARGET_MISSING, t));
    fs' := PushIf(fs', t.byo && t.connectionId == "", OfTarget(CONNECTION_MISSING, t));
  }

  lemma TargetFindingsSnoc(fs: seq<Finding>, ts: seq<Target>, i: nat)
    requires i < |ts|
    ensures fs + AllTargetFindings(ts[..i + 1]) == fs + AllTargetFindings(ts[..i]) + TargetFindings(ts[i])
  {
    PrefixGrows(ts, i);
    Assoc(fs, AllTargetFindings(ts[..i]), TargetFindings(ts[i]));
  }

  method PushAllTargets(fs: seq<Finding>, ts: seq<Target>) returns (fs': seq<Finding>)
    ensures fs' == fs + AllTargetFindings(ts)
  {
    fs' := fs;
    NoMore(fs);
    for i := 0 to |ts|
      invariant fs' == fs + AllTargetFindings(ts[..i])
    {
      TargetFindingsSnoc(fs, ts, i);
      fs' := PushTargetFindings(fs', ts[i]);
    }
    assert ts[..|ts|] == ts;
  }

  lemma EnvKeyFindingsSnoc(fs: seq<Finding>, es: seq<EnvKey>, i: nat)
    requires i < |es|
    ensures fs + EnvKeyFindings(es[..i + 1]) == fs + EnvKeyFindings(es[..i]) + When(es[i].failed, OfEnvKey(es[i]))
  {
    PrefixGrows(es, i);
    Assoc(fs, EnvKeyFindings(es[..i]), When(es[i].failed, OfEnvKey(es[i])));
  }

  method PushEnvKeys(fs: seq<Finding>, es: seq<EnvKey>) returns (fs': seq<Finding>)
    ensures fs' == fs + EnvKeyFindings(es)
  {
    fs' := fs;
    NoMore(fs);
    for i := 0 to |es|
      invariant fs' == fs + EnvKeyFindings(es[..i])
    {
      EnvKeyFindingsSnoc(fs, es, i);
      fs' := PushIf(fs', es[i].failed, OfEnvKey(es[i]));
    }
    assert es[..|es|] == es;
  }

  method PushProject(p: Project, token: CiToken) returns (fs: seq<Finding>)
    ensures fs == ProjectFindings(p, token)
  {
    fs := PushIf([], p.repoFullName == "" || p.repoUrl == "", OfProject(REPO_MISSING));
    fs := PushIf(fs, p.workflowPath == "" && p.workflowFiles == 0, OfProject(WORKFLOW_MISSING));
    fs := PushIf(fs, token == NoToken, OfProject(TOKEN_MISSING));
    fs := PushIf(fs, token == RevokedToken, OfProject(TOKEN_REVOKED));
  }

  method BuildFindings(p: Project, ts: seq<Target>, es: seq<EnvKey>, token: CiToken) returns (fs: seq<Finding>)
    ensures fs == Detected(p, ts, es, token)
  {
    fs := PushProject(p, token);
    fs := PushAllTargets(fs, ts);
    fs := PushIf(fs, |ts| > 0 && |es| == 0, OfProject(ENV_EMPTY));
    fs := PushEnvKeys(fs, es);
  }

  // ----- What is detected -----

  predicate OfProjectIff(p: Project, ts: seq<Target>, es: seq<EnvKey>, token: CiToken, code: string) {
    || (code == "project_repo_metadata_missing" && (p.repoFullName == "" || p.repoUrl == ""))
    || (code == "workflow_files_missing" && p.workflowPath == "" && p.workflowFiles == 0)
    || (code == "ci_token_missing" && token == NoToken)
    || (code == "ci_token_revoked" && token == RevokedToken)
    || (code == "env_metadata_empty" && |ts| > 0 && |es| == 0)
  }

  predicate OfTargetIff(t: Target, code: string) {
    || (code == "branch_metadata_missing" && t.branchName == "")
    || (code == "deployment_target_metadata_missing" && (t.providerProjectId == "" || t.providerProjectName == ""))
    || (code == "provider_connection_metadata_unavailable" && t.byo && t.connectionId == "")
  }

  /** Each finding says what is missing or failed, and everything missing or failed is found. */
  lemma DetectedIff(p: Project, ts: seq<Target>, es: seq<EnvKey>, token: CiToken, f: Finding)
    ensures f in Detected(p, ts, es, token) <==>
            || (f.targetId == None && f.content == "" && OfProjectIff(p, ts, es, token, f.code))
            || (exists t :: t in ts && f.targetId == Some(t.id) && f.content == "" && OfTargetIff(t, f.code))
            || (exists e :: e in es && e.failed
                  && f == Finding("provider_env_key_failed", Some(e.targetId), e.key + "@" + e.environment))
  {
    ProjectIff(p, token, f);
    TargetsIff(ts, f);
    EnvKeysIff(es, f);
  }

  lemma ProjectIff(p: Project, token: CiToken, f: Finding)
    ensures f in ProjectFindings(p, token) <==>
            f.targetId == None && f.content == "" && OfProjectIff(p, [], [], token, f.code)
  {
  }

  lemma OneTargetIff(t: Target, f: Finding)
    ensures f in TargetFindings(t) <==> f.targetId == Some(t.id) && f.content == "" && OfTargetIff(t, f.code)
  {
  }

  lemma {:induction false} TargetsIff(ts: seq<Target>, f: Finding)
    ensures f in AllTargetFindings(ts) <==>
            exists t :: t in ts && f.targetId == Some(t.id) && f.content == "" && OfTargetIff(t, f.code)
  {
    if ts != [] {
      TargetsIff(ts[..|ts| - 1], f);
      OneTargetIff(ts[|ts| - 1], f);
      InitAndLast(ts);
      assert forall t :: t in ts <==> t in ts[..|ts| - 1] || t == ts[|ts| - 1];
    }
  }

  lemma {:induction false} EnvKeysIff(es: seq<EnvKey>, f: Finding)
    ensures f in EnvKeyFindings(es) <==>
            exists e :: e in es && e.failed
              && f == Finding("provider_env_key_failed", Some(e.targetId), e.key + "@" + e.environment)
  {
    if es != [] {
      EnvKeysIff(es[..|es| - 1], f);
      InitAndLast(es);
      assert forall e :: e in es <==> e in es[..|es| - 1] || e == es[|es| - 1];
    }
  }

  // ----- Which detected findings share a key -----

  type Tag = (string, Option<string>)

  function TagOf(f: Finding): Tag {
    (f.code, f.targetId)
  }

  function Tags(fs: seq<Finding>): (tags: seq<Tag>)
    ensures |tags| == |fs| && forall i :: 0 <= i < |fs| ==> tags[i] == TagOf(fs[i])
  {
    Map(TagOf, fs)
  }

  lemma TagsConcat(a: seq<Finding>, b: seq<Finding>)
    requires NoRepeats(Tags(a)) && NoRepeats(Tags(b)) && forall f, g :: f in a && g in b ==> TagOf(f) != TagOf(g)
    ensures NoRepeats(Tags(a + b))
  {
  }

  lemma ProjectTags(p: Project, token: CiToken)
    ensures NoRepeats(Tags(ProjectFindings(p, token)))
  {
    ProjectCodesDiffer();
  }

  lemma ProjectCodesDiffer()
    ensures REPO_MISSING != WORKFLOW_MISSING && REPO_MISSING != TOKEN_MISSING && REPO_MISSING != TOKEN_REVOKED
    ensures WORKFLOW_MISSING != TOKEN_MISSING && WORKFLOW_MISSING != TOKEN_REVOKED
  {
    assert REPO_MISSING[0] == 'p' && WORKFLOW_MISSING[0] == 'w' && TOKEN_MISSING[0] == 'c' && TOKEN_REVOKED[0] == 'c';
  }

  lemma ProjectCodes(p: Project, token: CiToken)
    ensures forall f :: f in ProjectFindings(p, token) ==> f.targetId == None && f.code !in {ENV_EMPTY, ENV_KEY_FAILED}
  {
    CodesDiffer();
    var cs := [REPO_MISSING, WORKFLOW_MISSING, TOKEN_MISSING, TOKEN_REVOKED, ENV_EMPTY, ENV_KEY_FAILED];
    assert forall i :: 0 <= i < 4 ==> cs[i] != cs[4] && cs[i] != cs[5];
  }

  lemma TargetTags(t: Target)
    ensures NoRepeats(Tags(TargetFindings(t)))
    ensures forall f :: f in TargetFindings(t) ==> f.targetId == Some(t.id) && f.code != ENV_KEY_FAILED
  {
  }

  predicate DistinctIds(ts: seq<Target>) {
    forall i, j :: 0 <= i < j < |ts| ==> ts[i].id != ts[j].id
  }

  lemma {:induction false} AllTargetTags(ts: seq<Target>)
    requires DistinctIds(ts)
    ensures NoRepeats(Tags(AllTargetFindings(ts)))
    ensures forall f :: f in AllTargetFindings(ts) ==>
              f.code != ENV_KEY_FAILED && exists i :: 0 <= i < |ts| && f.targetId == Some(ts[i].id)
  {
    if ts != [] {
      var init, last := ts[..|ts| - 1], ts[|ts| - 1];
      AllTargetTags(init);
      TargetTags(last);
      forall f | f in AllTargetFindings(init) ensures exists i :: 0 <= i < |ts| - 1 && f.targetId == Some(ts[i].id) {
        var i :| 0 <= i < |init| && f.targetId == Some(init[i].id);
        assert ts[i] == init[i];
      }
      TagsConcat(AllTargetFindings(init), TargetFindings(last));
    }
  }

  lemma {:induction false} EnvKeyTags(es: seq<EnvKey>)
    ensures forall f :: f in EnvKeyFindings(es) ==> f.code == ENV_KEY_FAILED
  {
    if es != [] {
      EnvKeyTags(es[..|es| - 1]);
    }
  }

  /** Two detected findings share code and target only if both report failed environment
      keys of one target. */
  lemma OnlyEnvKeysRepeat(p: Project, ts: seq<Target>, es: seq<EnvKey>, token: CiToken, i: nat, j: nat)
    requires DistinctIds(ts) && i < j < |Detected(p, ts, es, token)|
    requires TagOf(Detected(p, ts, es, token)[i]) == TagOf(Detected(p, ts, es, token)[j])
    ensures Detected(p, ts, es, token)[i].code == ENV_KEY_FAILED
  {
    OthersAreDistinct(p, ts, es, token);
    EnvKeyTags(es);
    OnlyAppendedRepeat(Others(p, ts, es, token), EnvKeyFindings(es), i, j);
  }

  lemma OnlyAppendedRepeat(a: seq<Finding>, b: seq<Finding>, i: nat, j: nat)
    requires NoRepeats(Tags(a)) && forall f :: f in b ==> f.code == ENV_KEY_FAILED
    requires i < j < |a + b| && TagOf((a + b)[i]) == TagOf((a + b)[j])
    ensures (a + b)[i].code == ENV_KEY_FAILED
  {
    if j >= |a| {
      assert (a + b)[j] in b;
    }
  }

  function Others(p: Project, ts: seq<Target>, es: seq<EnvKey>, token: CiToken): seq<Finding> {
    ProjectFindings(p, token) + AllTargetFindings(ts) + When(ts != [] && es == [], OfProject(ENV_EMPTY))
  }

  lemma OthersAreDistinct(p: Project, ts: seq<Target>, es: seq<EnvKey>, token: CiToken)
    requires DistinctIds(ts)
    ensures NoRepeats(Tags(Others(p, ts, es, token)))
  {
    ProjectTags(p, token);
    ProjectCodes(p, token);
    AllTargetTags(ts);
    TagsConcat(ProjectFindings(p, token), AllTargetFindings(ts));
    TagsConcat(ProjectFindings(p, token) + AllTargetFindings(ts), When(ts != [] && es == [], OfProject(ENV_EMPTY)));
  }

  predicate NamesItsTarget(f: Finding) {
    ':' !in f.code && f.targetId != Some("")
  }

  predicate Named(ts: seq<Target>, es: seq<EnvKey>) {
    (forall t :: t in ts ==> t.id != "") && forall e :: e in es ==> e.targetId != ""
  }

  lemma ProjectCodesArePlain()
    ensures ':' !in REPO_MISSING && ':' !in WORKFLOW_MISSING && ':' !in TOKEN_MISSING && ':' !in TOKEN_REVOKED
  {
  }

  lemma EnvCodesArePlain()
    ensures ':' !in ENV_EMPTY && ':' !in ENV_KEY_FAILED
  {
  }

  lemma TargetCodesArePlain()
    ensures ':' !in BRANCH_MISSING && ':' !in TARGET_MISSING
  {
  }

  lemma ConnectionCodeIsPlain()
    ensures ':' !in CONNECTION_MISSING
  {
  }

  lemma ProjectIsNamed(p: Project, token: CiToken)
    ensures forall f :: f in ProjectFindings(p, token) ==> NamesItsTarget(f)
    ensures NamesItsTarget(OfProject(ENV_EMPTY))
  {
    ProjectCodesArePlain();
    EnvCodesArePlain();
  }

  lemma TargetIsNamed(t: Target)
    requires t.id != ""
    ensures forall f :: f in TargetFindings(t) ==> NamesItsTarget(f)
  {
    TargetCodesArePlain();
    ConnectionCodeIsPlain();
  }

  lemma EnvKeyIsNamed(e: EnvKey)
    requires e.targetId != ""
    ensures NamesItsTarget(OfEnvKey(e))
  {
  }

  lemma {:induction false} TargetsAreNamed(ts: seq<Target>)
    requires forall t :: t in ts ==> t.id != ""
    ensures forall f :: f in AllTargetFindings(ts) ==> NamesItsTarget(f)
  {
    if ts != [] {
      TargetsAreNamed(ts[..|ts| - 1]);
      TargetIsNamed(ts[|ts| - 1]);
    }
  }

  lemma {:induction false} EnvKeysAreNamed(es: seq<EnvKey>)
    requires forall e :: e in es ==> e.targetId != ""
    ensures forall f :: f in EnvKeyFindings(es) ==> NamesItsTarget(f)
  {
    if es != [] {
      EnvKeysAreNamed(es[..|es| - 1]);
      EnvKeyIsNamed(es[|es| - 1]);
    }
  }

  lemma DetectedIsNamed(p: Project, ts: seq<Target>, es: seq<EnvKey>, token: CiToken, f: Finding)
    requires Named(ts, es) && f in Detected(p, ts, es, token)
    ensures NamesItsTarget(f)
  {
    ProjectIsNamed(p, token);
    TargetsAreNamed(ts);
    EnvKeysAreNamed(es);
  }

  lemma SameKeySameTag(a: Finding, b: Finding)
    requires NamesItsTarget(a) && NamesItsTarget(b) && Key(a) == Key(b)
    ensures TagOf(a) == TagOf(b)
  {
    KeyIdentifies(a, b);
  }

  /** So of a whole detection only failed environment keys of one target can share a key. */
  lemma OnlyEnvKeysShareAKey(p: Project, ts: seq<Target>, es: seq<EnvKey>, token: CiToken, i: nat, j: nat)
    requires DistinctIds(ts) && Named(ts, es) && i < j < |Detected(p, ts, es, token)|
    requires Key(Detected(p, ts, es, token)[i]) == Key(Detected(p, ts, es, token)[j])
    ensures var fs := Detected(p, ts, es, token);
            fs[i].code == ENV_KEY_FAILED && TagOf(fs[i]) == TagOf(fs[j])
  {
    var fs := Detected(p, ts, es, token);
    DetectedIsNamed(p, ts, es, token, fs[i]);
    DetectedIsNamed(p, ts, es, token, fs[j]);
    SameKeySameTag(fs[i], fs[j]);
    OnlyEnvKeysRepeat(p, ts, es, token, i, j);
  }

  // ----- A row that is never refreshed -----

  const Sound := Project("o/r", "u", "w", 0)

  function SoundTarget(): Target {
    Target("t1", "uat", "p", "n", false, "")
  }

  function FailedKey(key: string): EnvKey {
    EnvKey("t1", "uat", key, true)
  }

  function KeyFinding(key: string): Finding {
    Finding(ENV_KEY_FAILED, Some("t1"), key + "@" + "uat")
  }

  lemma OnlyEnvKeysDetected(es: seq<EnvKey>)
    requires es != []
    ensures Detected(Sound, [SoundTarget()], es, ActiveToken) == EnvKeyFindings(es)
  {
    assert [SoundTarget()][..0] == [];
    assert TargetFindings(SoundTarget()) == [] && AllTargetFindings([SoundTarget()]) == [];
    assert ProjectFindings(Sound, ActiveToken) == [];
  }

  lemma EnvKeySnoc(es: seq<EnvKey>, key: string)
    ensures EnvKeyFindings(es + [FailedKey(key)]) == EnvKeyFindings(es) + [KeyFinding(key)]
  {
    assert (es + [FailedKey(key)])[..|es + [FailedKey(key)]| - 1] == es;
  }

  lemma OneFailedKey(key: string)
    ensures Detected(Sound, [SoundTarget()], [FailedKey(key)], ActiveToken) == [KeyFinding(key)]
  {
    OnlyEnvKeysDetected([FailedKey(key)]);
    EnvKeySnoc([], key);
    assert [] + [FailedKey(key)] == [FailedKey(key)];
  }

  lemma TwoFailedKeys(a: string, b: string)
    ensures Detected(Sound, [SoundTarget()], [FailedKey(a), FailedKey(b)], ActiveToken) == [KeyFinding(a), KeyFinding(b)]
  {
    OnlyEnvKeysDetected([FailedKey(a), FailedKey(b)]);
    OneFailedKey(a);
    OnlyEnvKeysDetected([FailedKey(a)]);
    EnvKeySnoc([FailedKey(a)], b);
    assert [FailedKey(a)] + [FailedKey(b)] == [FailedKey(a), FailedKey(b)];
  }

  /** The table after a first detection of two keys with the same text. */
  function TwoRows(project: string, f: Finding, g: Finding): Table {
    map[0 := Row(project, f, Active), 1 := Row(project, g, Active)]
  }

  lemma NewRowsOfTwo(project: string, f: Finding, g: Finding)
    ensures NewRows(project, [f, g], 0) == TwoRows(project, f, g)
  {
    NewRowsSnoc(project, [], f, 0);
    NewRowsSnoc(project, [f], g, 0);
    assert [] + [f] == [f] && [f] + [g] == [f, g];
  }

  lemma BothMissing(f: Finding, g: Finding)
    ensures Missing(map[], [], [f, g]) == [f, g]
  {
    MissingSnoc(map[], [], [], f);
    MissingSnoc(map[], [], [f], g);
    assert [] + [f] == [f] && [f] + [g] == [f, g];
  }

  lemma FirstDetection(project: string, f: Finding, g: Finding)
    ensures Reconciled(map[], [], project, KeySet([f, g]), [f, g], 0) == TwoRows(project, f, g)
  {
    BothMissing(f, g);
    NewRowsOfTwo(project, f, g);
  }

  /** The keys A and B of one target fail, then only C does: whichever of the two rows is
      read first, the other stays active and shows a key that no longer fails. */
  lemma SecondDetectionLeavesStaleRow(project: string, listing: seq<nat>) returns (id: nat)
    requires Lists(listing, TwoRows(project, KeyFinding("A"), KeyFinding("B")), project)
    ensures var first := Detected(Sound, [SoundTarget()], [FailedKey("A"), FailedKey("B")], ActiveToken);
            var second := Detected(Sound, [SoundTarget()], [FailedKey("C")], ActiveToken);
            var once := Reconciled(map[], [], project, KeySet(first), first, 0);
            && once == TwoRows(project, KeyFinding("A"), KeyFinding("B"))
            && var twice := Reconciled(once, listing, project, KeySet(second), second, 2);
               IsActive(twice, project, id) && !Mirrors(twice[id], second)
  {
    assert KeyFinding("A").content[0] == 'A' && KeyFinding("B").content[0] == 'B' && KeyFinding("C").content[0] == 'C';
    TwoFailedKeys("A", "B");
    OneFailedKey("C");
    FirstDetection(project, KeyFinding("A"), KeyFinding("B"));
    id := OneRowIsStale(project, listing, KeyFinding("A"), KeyFinding("B"), KeyFinding("C"));
  }

  lemma OneRowIsStale(project: string, listing: seq<nat>, f: Finding, g: Finding, h: Finding) returns (id: nat)
    requires Lists(listing, TwoRows(project, f, g), project)
    requires Key(f) == Key(h) && Key(g) == Key(h) && h.content != f.content && h.content != g.content
    ensures var twice := Reconciled(TwoRows(project, f, g), listing, project, KeySet([h]), [h], 2);
            IsActive(twice, project, id) && !Mirrors(twice[id], [h])
  {
    var t := TwoRows(project, f, g);
    assert IsActive(t, project, 0) && IsActive(t, project, 1);
    id := if FirstWithKey(listing, t, Key(h)) == Some(0) then 1 else 0;
    StaysStale(t, listing, project, h, id);
  }

  lemma StaysStale(t: Table, listing: seq<nat>, project: string, f: Finding, id: nat)
    requires Lists(listing, t, project) && (forall i :: i in t ==> i < 2) && IsActive(t, project, id)
    requires Key(t[id].finding) == Key(f) && t[id].finding.content != f.content && FirstWithKey(listing, t, Key(f)) != Some(id)
    ensures var twice := Reconciled(t, listing, project, KeySet([f]), [f], 2);
            IsActive(twice, project, id) && !Mirrors(twice[id], [f])
  {
    RowsAfter(t, listing, project, [f], 2, id);
    assert f in [f];
  }
}
