/** Layering environment variables for one target: `resolveEnvSets`, and `validateVars`. */
module EnvSets {
  import opened Sequences
  import opened Text
  import opened Providers
  import opened ProvisioningRequest

  // ----- Which writers apply -----

  function SlotName(s: Slot): string {
    match s case Backend => "backend" case Frontend => "frontend" case Standalone => "standalone"
  }

  function ProviderName(p: Provider): string {
    match p case Vercel => "vercel" case Render => "render"
  }

  function TargetBranchKey(t: Target): string {
    SlotName(t.slot) + ":" + ProviderName(t.provider) + ":" + (if t.branchName.Some? then t.branchName.value else "uat")
  }

  predicate GroupApplies(g: VariableGroup, t: Target) {
    && (g.provider.Some? ==> g.provider.value == t.provider)
    && (g.appliesTo == AllTargets || TargetBranchKey(t) in g.targetBranches)
  }

  function TargetEnvironment(t: Target): Environment {
    if t.renderEnvironment.Some? then t.renderEnvironment.value
    else if t.branchName == Some("main") then ProductionEnv
    else UatEnv
  }

  function GroupSets(groups: seq<VariableGroup>, t: Target): seq<EnvSet> {
    if groups == [] then []
    else
      var last := groups[|groups| - 1];
      GroupSets(groups[..|groups| - 1], t) + if GroupApplies(last, t) then last.env else []
  }

  /** The sets that concern a target, weakest first: shared, applicable groups, its own. */
  function Layers(request: Request, t: Target, own: seq<EnvSet>): seq<EnvSet> {
    request.sharedEnv + GroupSets(request.variableGroups, t) + own
  }

  // ----- What layering means: the last non-empty writer wins -----

  predicate Writes(v: Variable) {
    v.key != "" && v.value != ""
  }

  /** Every effective write for one environment, in order. */
  function WritesFor(sets: seq<EnvSet>, e: Environment): seq<Variable> {
    if sets == [] then []
    else
      var last := sets[|sets| - 1];
      WritesFor(sets[..|sets| - 1], e) + if last.environment == e then Filter(Writes, last.vars) else []
  }

  function KeyOf(v: Variable): string {
    v.key
  }

  function Keys(vars: seq<Variable>): (ks: seq<string>)
    ensures |ks| == |vars| && forall i :: 0 <= i < |vars| ==> ks[i] == vars[i].key
  {
    Map(KeyOf, vars)
  }

  function LastWrite(writes: seq<Variable>, key: string): Option<string> {
    if writes == [] then None
    else if writes[|writes| - 1].key == key then Some(writes[|writes| - 1].value)
    else LastWrite(writes[..|writes| - 1], key)
  }

  /** Keys in the order they were first written, each with the value written last. */
  ghost predicate LastWriterWins(vars: seq<Variable>, writes: seq<Variable>) {
    && Keys(vars) == Distinct(Keys(writes))
    && forall i :: 0 <= i < |vars| ==> LastWrite(writes, vars[i].key) == Some(vars[i].value)
  }

  // ----- The layering loops over an insertion-ordered Map -----

  /** `Map.set`: overwrite in place, or append. */
  function SetVar(vars: seq<Variable>, v: Variable): seq<Variable> {
    if vars == [] then [v]
    else if vars[0].key == v.key then [v] + vars[1..]
    else [vars[0]] + SetVar(vars[1..], v)
  }

  lemma KeysCons(vars: seq<Variable>, tail: seq<Variable>)
    requires vars != [] && vars == [vars[0]] + tail
    ensures Keys(vars) == [vars[0].key] + Keys(tail)
  {
  }

  lemma {:induction false} SetVarKeys(vars: seq<Variable>, v: Variable)
    ensures Keys(SetVar(vars, v)) == if v.key in Keys(vars) then Keys(vars) else Keys(vars) + [v.key]
  {
    if vars != [] {
      var tail, vars' := vars[1..], SetVar(vars, v);
      KeysCons(vars, tail);
      if vars[0].key != v.key {
        SetVarKeys(tail, v);
        KeysCons(vars', SetVar(tail, v));
      } else {
        KeysCons(vars', tail);
      }
    }
  }

  lemma {:induction false} SetVarMembers(vars: seq<Variable>, v: Variable)
    requires NoRepeats(Keys(vars))
    ensures forall x :: x in SetVar(vars, v) ==> x == v || (x in vars && x.key != v.key)
  {
    if vars != [] {
      var tail := vars[1..];
      forall i, j | 0 <= i < j < |tail| ensures Keys(tail)[i] != Keys(tail)[j] {
        assert Keys(vars)[i + 1] != Keys(vars)[j + 1];
      }
      forall x | x in tail ensures x.key != vars[0].key {
        var i :| 0 <= i < |tail| && tail[i] == x;
        assert Keys(vars)[0] != Keys(vars)[i + 1];
      }
      SetVarMembers(tail, v);
    }
  }

  lemma KeysSnoc(writes: seq<Variable>, v: Variable)
    ensures Distinct(Keys(writes + [v])) ==
            if v.key in Keys(writes) then Distinct(Keys(writes)) else Distinct(Keys(writes)) + [v.key]
  {
    assert Keys(writes + [v]) == Keys(writes) + [v.key];
    DistinctSnoc(Keys(writes), v.key);
  }

  lemma LastWriteSnoc(writes: seq<Variable>, v: Variable, key: string)
    ensures LastWrite(writes + [v], key) == if v.key == key then Some(v.value) else LastWrite(writes, key)
  {
    assert (writes + [v])[..|writes + [v]| - 1] == writes;
  }

  lemma SetVarKeepsLastWriterWins(vars: seq<Variable>, writes: seq<Variable>, v: Variable)
    requires LastWriterWins(vars, writes)
    ensures LastWriterWins(SetVar(vars, v), writes + [v])
  {
    var vars' := SetVar(vars, v);
    SetVarKeys(vars, v);
    SetVarMembers(vars, v);
    KeysSnoc(writes, v);
    forall i | 0 <= i < |vars'| ensures LastWrite(writes + [v], vars'[i].key) == Some(vars'[i].value) {
      assert vars'[i] in vars';
      LastWriteSnoc(writes, v, vars'[i].key);
    }
  }

  type Merged = map<Environment, seq<Variable>>

  function VarsOf(m: Merged, e: Environment): seq<Variable> {
    if e in m then m[e] else []
  }

  ghost predicate Merges(m: Merged, sets: seq<EnvSet>) {
    forall e :: LastWriterWins(VarsOf(m, e), WritesFor(sets, e))
  }

  lemma MoreWrites(writes: seq<Variable>, more: seq<Variable>, i: nat)
    requires i < |more|
    ensures var soFar := writes + Filter(Writes, more[..i]);
            writes + Filter(Writes, more[..i + 1]) == if Writes(more[i]) then soFar + [more[i]] else soFar
  {
    PrefixGrows(more, i);
    FilterSnoc(more[..i], more[i]);
    Assoc(writes, Filter(Writes, more[..i]), [more[i]]);
  }

  method MergeVars(vars: seq<Variable>, more: seq<Variable>, ghost writes: seq<Variable>) returns (vars': seq<Variable>)
    requires LastWriterWins(vars, writes)
    ensures LastWriterWins(vars', writes + Filter(Writes, more))
  {
    vars' := vars;
    NoMore(writes);
    for i := 0 to |more|
      invariant LastWriterWins(vars', writes + Filter(Writes, more[..i]))
    {
      var variable := more[i];
      MoreWrites(writes, more, i);
      if variable.key != "" && variable.value != "" {
        SetVarKeepsLastWriterWins(vars', writes + Filter(Writes, more[..i]), variable);
        vars' := SetVar(vars', variable);
      }
    }
    assert more[..|more|] == more;
  }

  lemma FilterSnoc(vars: seq<Variable>, v: Variable)
    ensures Filter(Writes, vars + [v]) == if Writes(v) then Filter(Writes, vars) + [v] else Filter(Writes, vars)
  {
    FilterConcat(Writes, vars, [v]);
    assert Filter(Writes, [v]) == if Writes(v) then [v] + Filter(Writes, []) else [];
  }

  lemma WritesForSnoc(sets: seq<EnvSet>, envSet: EnvSet, e: Environment)
    ensures WritesFor(sets + [envSet], e) ==
            if envSet.environment == e then WritesFor(sets, e) + Filter(Writes, envSet.vars) else WritesFor(sets, e)
  {
  }

  method MergeEnvSet(m: Merged, envSet: EnvSet, ghost sets: seq<EnvSet>) returns (m': Merged)
    requires Merges(m, sets)
    ensures Merges(m', sets + [envSet])
  {
    var vars := MergeVars(VarsOf(m, envSet.environment), envSet.vars, WritesFor(sets, envSet.environment));
    m' := m[envSet.environment := vars];
    forall e ensures LastWriterWins(VarsOf(m', e), WritesFor(sets + [envSet], e)) {
      WritesForSnoc(sets, envSet, e);
      assert LastWriterWins(VarsOf(m, e), WritesFor(sets, e));
    }
  }

  method MergeAll(m: Merged, more: seq<EnvSet>, ghost sets: seq<EnvSet>) returns (m': Merged)
    requires Merges(m, sets)
    ensures Merges(m', sets + more)
  {
    m' := m;
    assert sets + more[..0] == sets;
    for i := 0 to |more|
      invariant Merges(m', sets + more[..i])
    {
      assert sets + more[..i + 1] == (sets + more[..i]) + [more[i]];
      m' := MergeEnvSet(m', more[i], sets + more[..i]);
    }
    assert more[..|more|] == more;
  }

  method MergeGroups(m: Merged, groups: seq<VariableGroup>, t: Target, ghost sets: seq<EnvSet>) returns (m': Merged)
    requires Merges(m, sets)
    ensures Merges(m', sets + GroupSets(groups, t))
  {
    m' := m;
    assert sets + GroupSets(groups[..0], t) == sets;
    for i := 0 to |groups|
      invariant Merges(m', sets + GroupSets(groups[..i], t))
    {
      var group := groups[i];
      ghost var soFar := GroupSets(groups[..i], t);
      assert groups[..i + 1][..i] == groups[..i];
      if !GroupApplies(group, t) {
        assert soFar + [] == soFar;
        continue;
      }
      Assoc(sets, soFar, group.env);
      m' := MergeAll(m', group.env, sets + soFar);
    }
    assert groups[..|groups|] == groups;
  }

  /** At most one set comes out: the target's own environment with, for every key written
      in any applicable layer, the value written last; nothing if no layer wrote any. */
  method ResolveEnvSets(request: Request, t: Target, own: seq<EnvSet>) returns (sets: seq<EnvSet>)
    ensures |sets| <= 1
    ensures sets == [] <==> WritesFor(Layers(request, t, own), TargetEnvironment(t)) == []
    ensures sets != [] ==>
              && sets[0].environment == TargetEnvironment(t)
              && LastWriterWins(sets[0].vars, WritesFor(Layers(request, t, own), TargetEnvironment(t)))
  {
    var merged: Merged := map[];
    assert Merges(merged, []);
    merged := MergeAll(merged, request.sharedEnv, []);
    assert [] + request.sharedEnv == request.sharedEnv;
    merged := MergeGroups(merged, request.variableGroups, t, request.sharedEnv);
    merged := MergeAll(merged, own, request.sharedEnv + GroupSets(request.variableGroups, t));

    var e := TargetEnvironment(t);
    assert LastWriterWins(VarsOf(merged, e), WritesFor(Layers(request, t, own), e));
    NothingWritten(VarsOf(merged, e), WritesFor(Layers(request, t, own), e));
    sets := if e in merged && merged[e] != [] then [EnvSet(e, merged[e])] else [];
  }

  lemma NothingWritten(vars: seq<Variable>, writes: seq<Variable>)
    requires LastWriterWins(vars, writes)
    ensures vars == [] <==> writes == []
  {
  }

  // ----- Validation -----

  datatype Verdict = Accepted | NoVars | InvalidKey(at: nat) | DuplicateKey(at: nat) | InvalidValue(at: nat)

  const MAX_VALUE_LENGTH := 16384

  predicate KeyStart(c: char) { 'A' <= c <= 'Z' || c == '_' }

  predicate KeyRest(c: char) { KeyStart(c) || '0' <= c <= '9' }

  /** `^[A-Z_][A-Z0-9_]{1,127}$` */
  predicate ValidKey(key: string) {
    2 <= |key| <= 128 && KeyStart(key[0]) && forall i :: 1 <= i < |key| ==> KeyRest(key[i])
  }

  ghost predicate AcceptableAt(vars: seq<Variable>, i: nat)
    requires i < |vars|
  {
    && ValidKey(vars[i].key)
    && vars[i].key !in Keys(vars[..i])
    && |vars[i].value| <= MAX_VALUE_LENGTH
  }

  /** Accepts exactly the non-empty lists of valid variables without a repeated key, and
      otherwise reports the first offence. */
  method ValidateVars(vars: seq<Variable>) returns (verdict: Verdict)
    ensures verdict.Accepted? <==> vars != [] && forall i :: 0 <= i < |vars| ==> AcceptableAt(vars, i)
    ensures verdict.NoVars? <==> vars == []
    ensures !verdict.Accepted? && !verdict.NoVars? ==>
              verdict.at < |vars| && !AcceptableAt(vars, verdict.at)
              && forall i :: 0 <= i < verdict.at ==> AcceptableAt(vars, i)
    ensures verdict.InvalidKey? ==> !ValidKey(vars[verdict.at].key)
    ensures verdict.DuplicateKey? ==> vars[verdict.at].key in Keys(vars[..verdict.at])
    ensures verdict.InvalidValue? ==> |vars[verdict.at].value| > 16384
  {
    if |vars| == 0 {
      return NoVars;
    }
    var seen: set<string> := {};
    for i := 0 to |vars|
      invariant seen == set k | k in Keys(vars[..i])
      invariant forall j :: 0 <= j < i ==> AcceptableAt(vars, j)
    {
      var variable := vars[i];
      if !ValidKey(variable.key) {
        assert !AcceptableAt(vars, i);
        return InvalidKey(i);
      }
      if variable.key in seen {
        assert !AcceptableAt(vars, i);
        return DuplicateKey(i);
      }
      if |variable.value| > MAX_VALUE_LENGTH {
        assert !AcceptableAt(vars, i);
        return InvalidValue(i);
      }
      assert Keys(vars[..i + 1]) == Keys(vars[..i]) + [variable.key];
      seen := seen + {variable.key};
    }
    verdict := Accepted;
  }

  /** A resolved set is never refused as empty or for a repeated key: a refusal names a
      malformed key or an oversized value. */
  method ResolvedSetsValidate(request: Request, t: Target, own: seq<EnvSet>) returns (verdicts: seq<Verdict>)
    ensures forall v :: v in verdicts ==> v.Accepted? || v.InvalidKey? || v.InvalidValue?
    ensures |verdicts| <= 1
  {
    var sets := ResolveEnvSets(request, t, own);
    if sets == [] {
      return [];
    }
    NothingWritten(sets[0].vars, WritesFor(Layers(request, t, own), TargetEnvironment(t)));
    var verdict := ValidateVars(sets[0].vars);
    verdicts := [verdict];
  }

  /** A variable is acceptable iff its key is valid and new and its value has at most 16384
      characters. */
  lemma AcceptableIff(vars: seq<Variable>, i: nat)
    requires i < |vars|
    ensures AcceptableAt(vars, i) <==>
            && ValidKey(vars[i].key) && |vars[i].value| <= 16384
            && forall j :: 0 <= j < i ==> vars[j].key != vars[i].key
  {
    var earlier := Keys(vars[..i]);
    if vars[i].key in earlier {
      var j :| 0 <= j < i && earlier[j] == vars[i].key;
    } else {
      forall j | 0 <= j < i ensures vars[j].key != vars[i].key {
        assert earlier[j] in earlier;
      }
    }
  }

  /** Two to 128 characters out of capitals, digits and underscores, no digit first. */
  lemma ValidKeyIff(key: string)
    ensures ValidKey(key) <==>
            && 2 <= |key| && |key| <= 128 && !('0' <= key[0] <= '9')
            && forall i :: 0 <= i < |key| ==> 'A' <= key[i] <= 'Z' || '0' <= key[i] <= '9' || key[i] == '_'
  {
  }

  // ----- Layering, stated write by write -----

  /** A group applies to its provider, if it names one, and to all targets or to those it
      lists by slot, provider and branch; a target without a branch counts as uat. */
  lemma AppliesIff(g: VariableGroup, t: Target)
    ensures GroupApplies(g, t) <==>
            && (g.provider == None || g.provider == Some(t.provider))
            && (g.appliesTo == AllTargets
                || (match t.slot case Backend => "backend" case Frontend => "frontend" case Standalone => "standalone")
                   + ":" + (if t.provider == Vercel then "vercel" else "render")
                   + ":" + (if t.branchName.Some? then t.branchName.value else "uat") in g.targetBranches)
  {
  }

  /** Variables are those of the Render environment, else of production on main, else of uat. */
  lemma EnvironmentOf(t: Target, e: Environment)
    ensures TargetEnvironment(t) == e <==>
            t.renderEnvironment == Some(e)
            || (t.renderEnvironment == None && e == if t.branchName == Some("main") then ProductionEnv else UatEnv)
  {
  }

  /** An effective write of a key for an environment: neither key nor value empty. */
  predicate WrittenAt(sets: seq<EnvSet>, i: nat, j: nat, e: Environment, key: string) {
    && i < |sets| && sets[i].environment == e && j < |sets[i].vars|
    && sets[i].vars[j].key == key && key != "" && sets[i].vars[j].value != ""
  }

  predicate NeverWritten(sets: seq<EnvSet>, e: Environment, key: string) {
    forall i, j :: 0 <= i < |sets| && 0 <= j < |sets[i].vars| ==> !WrittenAt(sets, i, j, e, key)
  }

  predicate LastWrittenAt(sets: seq<EnvSet>, i: nat, j: nat, e: Environment, key: string) {
    && WrittenAt(sets, i, j, e, key)
    && (forall j' :: j < j' < |sets[i].vars| ==> !WrittenAt(sets, i, j', e, key))
    && forall i', j' :: i < i' < |sets| && 0 <= j' < |sets[i'].vars| ==> !WrittenAt(sets, i', j', e, key)
  }

  lemma {:induction false} LastWriteConcat(a: seq<Variable>, b: seq<Variable>, key: string)
    ensures LastWrite(a + b, key) == if LastWrite(b, key).Some? then LastWrite(b, key) else LastWrite(a, key)
  {
    if b == [] {
      NoMore(a);
    } else {
      LastWriteConcat(a, b[..|b| - 1], key);
      InitOfConcat(a, b);
    }
  }

  /** The last effective write of a key among variables, if any. */
  predicate IsLastAmong(vars: seq<Variable>, j: nat, key: string, found: Option<string>) {
    match found
    case None => forall i :: 0 <= i < |vars| ==> !(Writes(vars[i]) && vars[i].key == key)
    case Some(value) => j < |vars| && Writes(vars[j]) && vars[j] == Variable(key, value)
                        && forall i :: j < i < |vars| ==> !(Writes(vars[i]) && vars[i].key == key)
  }

  lemma {:induction false} LastAmong(vars: seq<Variable>, key: string) returns (j: nat)
    ensures IsLastAmong(vars, j, key, LastWrite(Filter(Writes, vars), key))
  {
    j := 0;
    if vars != [] {
      var init, last := vars[..|vars| - 1], vars[|vars| - 1];
      j := LastAmong(init, key);
      InitAndLast(vars);
      FilterSnoc(init, last);
      LastWriteSnoc(Filter(Writes, init), last, key);
      LastAmongSnoc(init, last, j, key, LastWrite(Filter(Writes, init), key));
      if Writes(last) && last.key == key {
        j := |init|;
      }
    }
  }

  lemma LastAmongSnoc(init: seq<Variable>, last: Variable, j: nat, key: string, found: Option<string>)
    requires IsLastAmong(init, j, key, found)
    ensures if Writes(last) && last.key == key then IsLastAmong(init + [last], |init|, key, Some(last.value))
            else IsLastAmong(init + [last], j, key, found)
  {
  }

  lemma {:induction false} LastWriteAt(sets: seq<EnvSet>, e: Environment, key: string) returns (i: nat, j: nat)
    ensures var found := LastWrite(WritesFor(sets, e), key);
            && (found.None? <==> NeverWritten(sets, e, key))
            && (found.Some? ==> LastWrittenAt(sets, i, j, e, key) && sets[i].vars[j].value == found.value)
  {
    i, j := 0, 0;
    if sets != [] {
      var init, last := sets[..|sets| - 1], sets[|sets| - 1];
      var k := LastAmong(last.vars, key);
      i, j := LastWriteAt(init, e, key);
      InitAndLast(sets);
      WritesForSnoc(init, last, e);
      LastWriteConcat(WritesFor(init, e), Filter(Writes, last.vars), key);
      if last.environment == e && LastWrite(Filter(Writes, last.vars), key).Some? {
        NowLast(init, last, k, e, key);
        i, j := |init|, k;
      } else {
        StillLast(init, last, i, j, e, key);
      }
    }
  }

  lemma NowLast(init: seq<EnvSet>, last: EnvSet, k: nat, e: Environment, key: string)
    requires last.environment == e && k < |last.vars| && Writes(last.vars[k]) && last.vars[k].key == key
    requires forall i :: k < i < |last.vars| ==> !(Writes(last.vars[i]) && last.vars[i].key == key)
    ensures LastWrittenAt(init + [last], |init|, k, e, key) && !NeverWritten(init + [last], e, key)
  {
    assert WrittenAt(init + [last], |init|, k, e, key);
  }

  lemma StillLast(init: seq<EnvSet>, last: EnvSet, i: nat, j: nat, e: Environment, key: string)
    requires forall k :: 0 <= k < |last.vars| ==>
               !(last.environment == e && Writes(last.vars[k]) && last.vars[k].key == key)
    ensures LastWrittenAt(init, i, j, e, key) ==> LastWrittenAt(init + [last], i, j, e, key)
    ensures NeverWritten(init + [last], e, key) <==> NeverWritten(init, e, key)
  {
    var all := init + [last];
    forall i', j' | 0 <= i' < |all| && 0 <= j' < |all[i'].vars|
      ensures WrittenAt(all, i', j', e, key) <==> i' < |init| && WrittenAt(init, i', j', e, key)
    {
      assert i' == |init| ==> all[i'] == last;
    }
    forall i', j' | 0 <= i' < |init| && 0 <= j' < |init[i'].vars|
      ensures WrittenAt(init, i', j', e, key) ==> WrittenAt(all, i', j', e, key)
    {
      assert all[i'] == init[i'];
    }
  }

  lemma {:induction false} WritesForConcat(a: seq<EnvSet>, b: seq<EnvSet>, e: Environment)
    ensures WritesFor(a + b, e) == WritesFor(a, e) + WritesFor(b, e)
  {
    if b == [] {
      NoMore(a);
      NoMore(WritesFor(a, e));
    } else {
      var init, last := b[..|b| - 1], b[|b| - 1];
      WritesForConcat(a, init, e);
      InitOfConcat(a, b);
      Assoc(WritesFor(a, e), WritesFor(init, e), if last.environment == e then Filter(Writes, last.vars) else []);
    }
  }

  /** The target's own sets beat the applicable groups, and those the shared sets. */
  lemma StrongestLayerWins(request: Request, t: Target, own: seq<EnvSet>, e: Environment, key: string)
    ensures var ofOwn := LastWrite(WritesFor(own, e), key);
            var ofGroups := LastWrite(WritesFor(GroupSets(request.variableGroups, t), e), key);
            LastWrite(WritesFor(Layers(request, t, own), e), key) ==
            if ofOwn.Some? then ofOwn else if ofGroups.Some? then ofGroups
            else LastWrite(WritesFor(request.sharedEnv, e), key)
  {
    var groups := GroupSets(request.variableGroups, t);
    WritesForConcat(request.sharedEnv, groups, e);
    WritesForConcat(request.sharedEnv + groups, own, e);
    LastWriteConcat(WritesFor(request.sharedEnv, e), WritesFor(groups, e), key);
    LastWriteConcat(WritesFor(request.sharedEnv + groups, e), WritesFor(own, e), key);
  }

  /** Among the applicable groups that write a key the last one wins. */
  lemma {:induction false} LastApplicableGroupWins(groups: seq<VariableGroup>, t: Target, e: Environment, key: string)
    ensures var found := LastWrite(WritesFor(GroupSets(groups, t), e), key);
            && (found.None? ==> forall g :: g in groups && GroupApplies(g, t) ==> LastWrite(WritesFor(g.env, e), key).None?)
            && (found.Some? ==> exists i :: 0 <= i < |groups| && GroupApplies(groups[i], t)
                                  && LastWrite(WritesFor(groups[i].env, e), key) == found
                                  && forall j :: i < j < |groups| && GroupApplies(groups[j], t) ==>
                                       LastWrite(WritesFor(groups[j].env, e), key).None?)
  {
    if groups != [] {
      var init, last := groups[..|groups| - 1], groups[|groups| - 1];
      LastApplicableGroupWins(init, t, e, key);
      InitAndLast(groups);
      if GroupApplies(last, t) {
        WritesForConcat(GroupSets(init, t), last.env, e);
        LastWriteConcat(WritesFor(GroupSets(init, t), e), WritesFor(last.env, e), key);
      } else {
        NoMore(GroupSets(init, t));
      }
    }
  }
}
