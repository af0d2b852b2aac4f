/** Fanning managed Render targets out to uat and main: `expandManagedRenderTargets`. */
module RenderTargets {
  import opened Sequences
  import opened Text
  import opened Providers
  import opened ProvisioningRequest

  predicate EndsWith(s: string, suffix: string) {
    |s| >= |suffix| && Lower(s[|s| - |suffix|..]) == suffix
  }

  /** The length of the stage suffix the name ends in, in any letter case; 0 if none. */
  function StageSuffixLength(s: string): (n: nat)
    ensures n <= |s|
  {
    if EndsWith(s, "-test") then 5
    else if EndsWith(s, "-uat") then 4
    else if EndsWith(s, "-main") then 5
    else if EndsWith(s, "-production") then 11
    else 0
  }

  function BaseName(s: string): string {
    s[..|s| - StageSuffixLength(s)]
  }

  /** `renderProjectNameForBranch`: nothing for a missing or blank name. */
  function Rename(name: Option<string>, b: Branch): Option<string> {
    if name.None? || Trim(name.value) == "" then None
    else Some(BaseName(Trim(name.value)) + "-" + BranchName(b))
  }

  function StageEnvironment(b: Branch): Environment {
    match b case Uat => UatEnv case Main => ProductionEnv
  }

  function Renamed(t: Target, b: Branch): Target {
    t.(branchName := Some(BranchName(b)),
       projectName := if Rename(t.projectName, b).Some? then Rename(t.projectName, b) else t.projectName)
  }

  /** The retired `test` branch is read as uat. */
  function Normalize(t: Target): Target {
    if t.branchName != Some("test") then t
    else if t.provider == Render then Renamed(t, Uat).(renderEnvironment := Some(UatEnv))
    else Renamed(t, Uat)
  }

  predicate Eligible(t: Target) {
    t.provider == Render && t.ownership == Managed && t.deployMethod != Some(ExistingService)
  }

  predicate InGroup(t: Target, ownership: Ownership, slot: Slot) {
    t.provider == Render && t.ownership == ownership && t.slot == slot
  }

  predicate Staged(t: Target) {
    t.branchName.Some? && t.branchName.value != ""
  }

  /** The branches a group of Render targets names. */
  function StagedBranches(ts: seq<Target>, ownership: Ownership, slot: Slot): set<string> {
    set t | t in ts && InGroup(t, ownership, slot) && Staged(t) :: t.branchName.value
  }

  predicate ShouldFanOut(t: Target, all: seq<Target>) {
    Eligible(t) && |StagedBranches(all, t.ownership, t.slot)| <= 1
  }

  function OnBranch(t: Target, b: Branch): Target {
    Renamed(t, b).(renderEnvironment := Some(StageEnvironment(b)))
  }

  function FanOut(t: Target): seq<Target> {
    [OnBranch(t, Uat), OnBranch(t, Main)]
  }

  function ExpandAll(ts: seq<Target>, all: seq<Target>): seq<Target> {
    if ts == [] then []
    else (if ShouldFanOut(ts[0], all) then FanOut(ts[0]) else [ts[0]]) + ExpandAll(ts[1..], all)
  }

  function ExpandManagedRenderTargets(ts: seq<Target>): seq<Target> {
    var normalized := Map(Normalize, ts);
    ExpandAll(normalized, normalized)
  }

  // ----- Renaming -----

  lemma EndsOtherwise(base: string, tail: string, suffix: string, k: nat)
    requires 1 <= k <= |suffix| && k <= |tail| && LowerChar(tail[|tail| - k]) != suffix[|suffix| - k]
    ensures !EndsWith(base + tail, suffix)
  {
  }

  lemma EndsWithOwnSuffix(base: string, suffix: string)
    requires forall i :: 0 <= i < |suffix| ==> LowerChar(suffix[i]) == suffix[i]
    ensures EndsWith(base + suffix, suffix)
  {
  }

  lemma UatSuffix(base: string)
    ensures StageSuffixLength(base + "-uat") == 4
  {
    EndsWithOwnSuffix(base, "-uat");
    EndsOtherwise(base, "-uat", "-test", 2);
  }

  lemma MainSuffix(base: string)
    ensures StageSuffixLength(base + "-main") == 5
  {
    EndsWithOwnSuffix(base, "-main");
    EndsOtherwise(base, "-main", "-test", 1);
    EndsOtherwise(base, "-main", "-uat", 1);
  }

  lemma StageSuffixOfBranch(base: string, b: Branch)
    ensures BaseName(base + "-" + BranchName(b)) == base
  {
    Assoc(base, "-", BranchName(b));
    match b {
      case Uat =>
        assert "-" + "uat" == "-uat";
        UatSuffix(base);
        assert (base + "-uat")[..|base|] == base;
      case Main =>
        assert "-" + "main" == "-main";
        MainSuffix(base);
        assert (base + "-main")[..|base|] == base;
    }
  }

  /** Renaming forgets an earlier renaming, for every name. */
  lemma RenameForgets(name: Option<string>, a: Branch, b: Branch)
    ensures Rename(Rename(name, a), b) == Rename(name, b)
  {
    if Rename(name, a).Some? {
      var base := BaseName(Trim(name.value));
      var r := base + "-" + BranchName(a);
      assert r[0] == if base == "" then '-' else Trim(name.value)[0];
      assert r[|r| - 1] == BranchName(a)[|BranchName(a)| - 1];
      TrimOfTrimmed(r);
      StageSuffixOfBranch(base, a);
    }
  }

  /** Reading `test` as uat first makes no difference to what a target fans out to. */
  lemma FanOutIgnoresNormalization(t: Target)
    requires t.provider == Render
    ensures FanOut(Normalize(t)) == FanOut(t)
  {
    RenameForgets(t.projectName, Uat, Uat);
    RenameForgets(t.projectName, Uat, Main);
  }

  // ----- Expansion -----

  lemma {:induction false} ExpandedFrom(ts: seq<Target>, all: seq<Target>, x: Target)
    ensures x in ExpandAll(ts, all) <==>
            exists t :: t in ts && x in (if ShouldFanOut(t, all) then FanOut(t) else [t])
  {
    if ts != [] {
      ExpandedFrom(ts[1..], all, x);
      assert forall t :: t in ts <==> t == ts[0] || t in ts[1..];
    }
  }

  lemma {:induction false} ExpandsToItself(ts: seq<Target>, all: seq<Target>)
    requires forall t :: t in ts ==> !ShouldFanOut(t, all)
    ensures ExpandAll(ts, all) == ts
  {
    if ts != [] {
      assert ts[0] in ts;
      ExpandsToItself(ts[1..], all);
    }
  }

  lemma AtLeastTwo(s: set<string>, a: string, b: string)
    requires a in s && b in s && a != b
    ensures |s| >= 2
  {
    assert |s| == 1 + |s - {a}| && b in s - {a};
  }

  lemma Member(ts: seq<Target>, t: Target)
    requires t in ts && Staged(t)
    ensures t.branchName.value in StagedBranches(ts, t.ownership, t.slot) || t.provider != Render
  {
  }

  /** A group that is fanned out names both stages afterwards. */
  lemma FannedOutGroup(all: seq<Target>, t: Target)
    requires t in all && ShouldFanOut(t, all)
    ensures var staged := StagedBranches(ExpandAll(all, all), t.ownership, t.slot);
            "uat" in staged && "main" in staged
  {
    ExpandedFrom(all, all, OnBranch(t, Uat));
    ExpandedFrom(all, all, OnBranch(t, Main));
    Member(ExpandAll(all, all), OnBranch(t, Uat));
    Member(ExpandAll(all, all), OnBranch(t, Main));
  }

  /** A group that names two branches or more is left alone. */
  lemma UntouchedGroup(all: seq<Target>, ownership: Ownership, slot: Slot)
    requires |StagedBranches(all, ownership, slot)| >= 2
    ensures StagedBranches(ExpandAll(all, all), ownership, slot) == StagedBranches(all, ownership, slot)
  {
    forall x | InGroup(x, ownership, slot) ensures x in ExpandAll(all, all) <==> x in all {
      ExpandedFrom(all, all, x);
    }
  }

  lemma ExpandedTarget(all: seq<Target>, x: Target) returns (t: Target)
    requires x in ExpandAll(all, all)
    ensures t in all && x in (if ShouldFanOut(t, all) then FanOut(t) else [t])
    ensures Eligible(x) == Eligible(t) && x.ownership == t.ownership && x.slot == t.slot && x.provider == t.provider
  {
    ExpandedFrom(all, all, x);
    t :| t in all && x in (if ShouldFanOut(t, all) then FanOut(t) else [t]);
  }

  /** No target is left on the test branch. */
  lemma NoTestBranch(ts: seq<Target>, x: Target)
    requires x in ExpandManagedRenderTargets(ts)
    ensures x.branchName != Some("test")
  {
    var t := ExpandedTarget(Map(Normalize, ts), x);
    var i :| 0 <= i < |ts| && Map(Normalize, ts)[i] == t;
  }

  /** An eligible group ends up on both stages iff, with test read as uat, it named at most
      one branch or already named both. */
  lemma CoversBothStages(ts: seq<Target>, x: Target)
    requires x in ExpandManagedRenderTargets(ts) && Eligible(x)
    ensures var before := StagedBranches(Map(Normalize, ts), x.ownership, x.slot);
            var after := StagedBranches(ExpandManagedRenderTargets(ts), x.ownership, x.slot);
            {"uat", "main"} <= after <==> |before| <= 1 || {"uat", "main"} <= before
  {
    var all := Map(Normalize, ts);
    var t := ExpandedTarget(all, x);
    if ShouldFanOut(t, all) {
      FannedOutGroup(all, t);
    } else {
      UntouchedGroup(all, x.ownership, x.slot);
    }
  }

  /** A managed backend on the given branch. */
  function BackendOn(branch: string): Target {
    Target(Backend, Render, Managed, Some(ManagedImage), Some(branch), Some("api"), None, [], "")
  }

  /** Asked for on uat and on a branch of its own, a backend is not fanned out and never
      gets its main service. */
  lemma ThirdBranchKeepsMainAway(branch: string)
    requires branch !in {"", "test", "uat", "main"}
    ensures var ts := [BackendOn("uat"), BackendOn(branch)];
            && ExpandManagedRenderTargets(ts) == ts && "main" !in StagedBranches(ts, Managed, Backend)
  {
    var ts := [BackendOn("uat"), BackendOn(branch)];
    assert Map(Normalize, ts) == ts;
    assert ts[0] in ts && ts[1] in ts;
    AtLeastTwo(StagedBranches(ts, Managed, Backend), "uat", branch);
    ExpandsToItself(ts, ts);
  }

  /** Expanding twice is expanding once. */
  lemma ExpandIsIdempotent(ts: seq<Target>)
    ensures ExpandManagedRenderTargets(ExpandManagedRenderTargets(ts)) == ExpandManagedRenderTargets(ts)
  {
    var all := Map(Normalize, ts);
    var expanded := ExpandAll(all, all);
    forall i | 0 <= i < |expanded| ensures Normalize(expanded[i]) == expanded[i] {
      NoTestBranch(ts, expanded[i]);
    }
    assert Map(Normalize, expanded) == expanded;
    forall x | x in expanded ensures !ShouldFanOut(x, expanded) {
      if Eligible(x) {
        var t := ExpandedTarget(all, x);
        if ShouldFanOut(t, all) {
          FannedOutGroup(all, t);
          AtLeastTwo(StagedBranches(expanded, x.ownership, x.slot), "uat", "main");
        } else {
          UntouchedGroup(all, x.ownership, x.slot);
        }
      }
    }
    ExpandsToItself(expanded, expanded);
  }
}
