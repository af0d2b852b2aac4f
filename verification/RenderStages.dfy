/** What fanning out makes of a request, stated from its targets, and which environment the
    resulting targets get their variables for. */
module RenderStages {
  import opened Sequences
  import opened Text
  import opened Providers
  import opened ProvisioningRequest
  import opened RenderTargets
  import EnvSets

  /** The branch names given in the group of Render targets of one owner and slot. */
  function NamesInGroup(all: seq<Target>, t: Target): set<string> {
    set x | x in all && x.provider == Render && x.ownership == t.ownership && x.slot == t.slot
            && x.branchName.Some? && x.branchName.value != "" :: x.branchName.value
  }

  /** A managed Render target that is not an existing service and whose group names at most
      one branch. */
  predicate FansOut(t: Target, all: seq<Target>) {
    && t.provider == Render && t.ownership == Managed && t.deployMethod != Some(ExistingService)
    && |NamesInGroup(all, t)| <= 1
  }

  lemma FansOutIff(t: Target, all: seq<Target>)
    ensures ShouldFanOut(t, all) <==> FansOut(t, all)
  {
    assert StagedBranches(all, t.ownership, t.slot) == NamesInGroup(all, t);
  }

  // ----- Names -----

  const STAGE_SUFFIXES := ["-test", "-uat", "-main", "-production"]

  predicate HasStageSuffix(name: string) {
    exists i :: 0 <= i < 4 && |name| >= |STAGE_SUFFIXES[i]| && Lower(name[|name| - |STAGE_SUFFIXES[i]|..]) == STAGE_SUFFIXES[i]
  }

  /** A name is trimmed, loses one stage suffix in any letter case if it has one, and gets
      that of the branch. */
  lemma RenamedTo(name: string, b: Branch) returns (base: string, suffix: string)
    requires Trim(name) != ""
    ensures Trim(name) == base + suffix
    ensures if HasStageSuffix(Trim(name)) then Lower(suffix) in STAGE_SUFFIXES else suffix == ""
    ensures Rename(Some(name), b) == Some(base + if b == Uat then "-uat" else "-main")
  {
    var s := Trim(name);
    base, suffix := BaseName(s), s[|s| - StageSuffixLength(s)..];
    SuffixFound(s);
    Dashed(base, b);
  }

  lemma Dashed(base: string, b: Branch)
    ensures base + "-" + BranchName(b) == base + if b == Uat then "-uat" else "-main"
  {
    Assoc(base, "-", BranchName(b));
    assert "-" + "uat" == "-uat" && "-" + "main" == "-main";
  }

  lemma SuffixFound(s: string)
    ensures var n := StageSuffixLength(s);
            if HasStageSuffix(s) then Lower(s[|s| - n..]) in STAGE_SUFFIXES else n == 0
  {
    assert STAGE_SUFFIXES[0] == "-test" && STAGE_SUFFIXES[1] == "-uat" && STAGE_SUFFIXES[2] == "-main"
        && STAGE_SUFFIXES[3] == "-production";
    assert EndsWith(s, "-test") ==> Lower(s[|s| - 5..]) == STAGE_SUFFIXES[0];
    assert EndsWith(s, "-uat") ==> Lower(s[|s| - 4..]) == STAGE_SUFFIXES[1];
    assert EndsWith(s, "-main") ==> Lower(s[|s| - 5..]) == STAGE_SUFFIXES[2];
    assert EndsWith(s, "-production") ==> Lower(s[|s| - 11..]) == STAGE_SUFFIXES[3];
  }

  /** A blank or missing name is no name. */
  lemma NotRenamed(name: Option<string>, b: Branch)
    ensures Rename(name, b).None? <==> name.None? || Trim(name.value) == ""
  {
  }

  // ----- Copies -----

  /** `x` is `t` on a branch: in the Render environment of the branch, under the name of the
      branch if `t` has one, and otherwise unchanged. */
  predicate IsOn(x: Target, t: Target, b: Branch) {
    && x == t.(branchName := x.branchName, renderEnvironment := x.renderEnvironment, projectName := x.projectName)
    && x.branchName == Some(if b == Uat then "uat" else "main")
    && x.renderEnvironment == Some(if b == Main then ProductionEnv else UatEnv)
    && IsNameOn(x.projectName, t.projectName, b)
  }

  predicate IsNameOn(renamed: Option<string>, name: Option<string>, b: Branch) {
    if name.None? || Trim(name.value) == "" then renamed == name
    else
      && renamed == Rename(name, b)
      && |renamed.value| >= 4 && (b == Uat ==> renamed.value[|renamed.value| - 4..] == "-uat")
      && (b == Main ==> |renamed.value| >= 5 && renamed.value[|renamed.value| - 5..] == "-main")
  }

  lemma NamedOn(t: Target, b: Branch)
    ensures IsNameOn(Renamed(t, b).projectName, t.projectName, b)
  {
    NotRenamed(t.projectName, b);
    if t.projectName.Some? && Trim(t.projectName.value) != "" {
      var base, _ := RenamedTo(t.projectName.value, b);
      assert (base + "-uat")[|base|..] == "-uat" && (base + "-main")[|base|..] == "-main";
    }
  }

  lemma OnItsBranch(t: Target, b: Branch)
    ensures IsOn(OnBranch(t, b), t, b)
  {
    NamedOn(t, b);
  }

  /** The retired `test` branch is read as uat, for Render with its environment; any other
      target is taken as it is. */
  lemma ReadAs(t: Target)
    ensures t.branchName != Some("test") ==> Normalize(t) == t
    ensures t.branchName == Some("test") && t.provider == Render ==> IsOn(Normalize(t), t, Uat)
    ensures t.branchName == Some("test") && t.provider == Vercel ==>
              && Normalize(t) == t.(branchName := Some("uat"), projectName := Normalize(t).projectName)
              && IsNameOn(Normalize(t).projectName, t.projectName, Uat)
  {
    NamedOn(t, Uat);
  }

  // ----- The expansion -----

  /** The expansion takes the targets one by one, as they are read: one that fans out gives
      exactly two, on uat and on main, every other one itself. */
  ghost predicate IsExpansion(xs: seq<Target>, ts: seq<Target>, all: seq<Target>) {
    if ts == [] then xs == []
    else if FansOut(ts[0], all) then
      |xs| >= 2 && IsOn(xs[0], ts[0], Uat) && IsOn(xs[1], ts[0], Main) && IsExpansion(xs[2..], ts[1..], all)
    else |xs| >= 1 && xs[0] == ts[0] && IsExpansion(xs[1..], ts[1..], all)
  }

  lemma {:induction false} ExpandsTo(ts: seq<Target>, all: seq<Target>)
    ensures IsExpansion(ExpandAll(ts, all), ts, all)
  {
    if ts != [] {
      ExpandsTo(ts[1..], all);
      FansOutIff(ts[0], all);
      var rest := ExpandAll(ts[1..], all);
      if ShouldFanOut(ts[0], all) {
        OnItsBranch(ts[0], Uat);
        OnItsBranch(ts[0], Main);
        assert (FanOut(ts[0]) + rest)[2..] == rest;
      } else {
        assert ([ts[0]] + rest)[1..] == rest;
      }
    }
  }

  lemma ExpansionOf(ts: seq<Target>) returns (read: seq<Target>)
    ensures |read| == |ts| && forall i :: 0 <= i < |ts| ==> read[i] == Normalize(ts[i])
    ensures IsExpansion(ExpandManagedRenderTargets(ts), read, read)
  {
    read := Map(Normalize, ts);
    ExpandsTo(read, read);
  }

  /** Variables for production go to the copy on main and to no other. */
  lemma CopyGetsItsVariables(x: Target, t: Target, b: Branch)
    requires IsOn(x, t, b)
    ensures EnvSets.TargetEnvironment(x) == ProductionEnv <==> x.branchName == Some("main")
    ensures EnvSets.TargetEnvironment(x) == UatEnv <==> x.branchName == Some("uat")
  {
  }
}
