/** Wiring freshly provisioned services to each other: `crossLinkServiceUrls`. */
module CrossLink {
  import opened Sequences
  import opened Text
  import opened Providers
  import opened ProvisioningRequest

  /** One provisioned target, as the provisioning result describes it; `service` is the id of
      the Render service or Vercel project. */
  datatype Provisioned = Provisioned(slot: Slot, provider: Provider, failed: bool, deploymentTargetId: string,
                                     service: string, projectName: string, renderServiceUrl: string, vercelTeamSlug: string,
                                     renderEnvironment: Option<Environment>)

  /** Where a provider keeps variables: one set for a whole Render service, one each for the
      preview and the production deployments of a Vercel project. */
  datatype Stage = Whole | Preview | Live

  datatype Place = Place(provider: Provider, service: string, stage: Stage)

  /** Render clients ignore the environment; Vercel's `test` and `uat` are both preview. */
  function PlaceOf(t: Provisioned, e: Environment): Place {
    Place(t.provider, t.service, if t.provider == Render then Whole else if e == ProductionEnv then Live else Preview)
  }

  /** A write of some variables for one environment of one deployment target. */
  datatype Injection = Injection(targetId: string, place: Place, environment: Environment, vars: seq<Variable>)

  // ----- Keys the user named -----

  function EnvironmentName(e: Environment): string {
    match e case TestEnv => "test" case UatEnv => "uat" case ProductionEnv => "production"
  }

  function UserKey(e: Environment, key: string): string {
    EnvironmentName(e) + ":" + key
  }

  lemma UserKeyIsInjective(e: Environment, key: string, e': Environment, key': string)
    requires UserKey(e, key) == UserKey(e', key')
    ensures e == e' && key == key'
  {
    var k, k' := UserKey(e, key), UserKey(e', key');
    assert k[0] == EnvironmentName(e)[0] && k'[0] == EnvironmentName(e')[0];
    var n := |EnvironmentName(e)| + 1;
    assert key == k[n..] && key' == k'[n..];
  }

  function GroupEnvs(groups: seq<VariableGroup>): seq<EnvSet> {
    if groups == [] then [] else GroupEnvs(groups[..|groups| - 1]) + groups[|groups| - 1].env
  }

  function TargetEnvs(targets: seq<Target>): seq<EnvSet> {
    if targets == [] then [] else TargetEnvs(targets[..|targets| - 1]) + targets[|targets| - 1].env
  }

  /** Every environment set anywhere in the request, applicable or not. */
  function AllSets(request: Request): seq<EnvSet> {
    request.sharedEnv + GroupEnvs(request.variableGroups) + TargetEnvs(request.targets)
  }

  predicate Named(sets: seq<EnvSet>, e: Environment, key: string) {
    key != "" && exists s, v :: s in sets && s.environment == e && v in s.vars && v.key == key
  }

  function KeysOfVars(e: Environment, vars: seq<Variable>): set<string> {
    if vars == [] then {}
    else
      var last := vars[|vars| - 1];
      KeysOfVars(e, vars[..|vars| - 1]) + if last.key != "" then {UserKey(e, last.key)} else {}
  }

  function KeysOf(sets: seq<EnvSet>): set<string> {
    if sets == [] then {}
    else KeysOf(sets[..|sets| - 1]) + KeysOfVars(sets[|sets| - 1].environment, sets[|sets| - 1].vars)
  }

  lemma {:induction false} KeysOfVarsMeans(e': Environment, vars: seq<Variable>, e: Environment, key: string)
    ensures UserKey(e, key) in KeysOfVars(e', vars) <==> key != "" && e == e' && exists v :: v in vars && v.key == key
  {
    if vars != [] {
      var init, last := vars[..|vars| - 1], vars[|vars| - 1];
      KeysOfVarsMeans(e', init, e, key);
      assert forall v :: v in vars <==> v in init || v == last;
      if UserKey(e, key) == UserKey(e', last.key) {
        UserKeyIsInjective(e, key, e', last.key);
      }
    }
  }

  lemma {:induction false} KeysOfMeans(sets: seq<EnvSet>, e: Environment, key: string)
    ensures UserKey(e, key) in KeysOf(sets) <==> Named(sets, e, key)
  {
    if sets != [] {
      var init, last := sets[..|sets| - 1], sets[|sets| - 1];
      KeysOfMeans(init, e, key);
      KeysOfVarsMeans(last.environment, last.vars, e, key);
      assert forall s :: s in sets <==> s in init || s == last;
    }
  }

  lemma {:induction false} KeysOfConcat(a: seq<EnvSet>, b: seq<EnvSet>)
    ensures KeysOf(a + b) == KeysOf(a) + KeysOf(b)
  {
    if b == [] {
      NoMore(a);
    } else {
      KeysOfConcat(a, b[..|b| - 1]);
      InitOfConcat(a, b);
    }
  }

  method Collect(keys: set<string>, sets: seq<EnvSet>) returns (keys': set<string>)
    ensures keys' == keys + KeysOf(sets)
  {
    keys' := keys;
    for i := 0 to |sets|
      invariant keys' == keys + KeysOf(sets[..i])
    {
      var envSet := sets[i];
      for j := 0 to |envSet.vars|
        invariant keys' == keys + KeysOf(sets[..i]) + KeysOfVars(envSet.environment, envSet.vars[..j])
      {
        assert envSet.vars[..j + 1][..j] == envSet.vars[..j];
        if envSet.vars[j].key != "" {
          keys' := keys' + {UserKey(envSet.environment, envSet.vars[j].key)};
        }
      }
      assert envSet.vars[..|envSet.vars|] == envSet.vars;
      assert sets[..i + 1][..i] == sets[..i];
    }
    assert sets[..|sets|] == sets;
  }

  method CollectGroups(keys: set<string>, groups: seq<VariableGroup>) returns (keys': set<string>)
    ensures keys' == keys + KeysOf(GroupEnvs(groups))
  {
    keys' := keys;
    for i := 0 to |groups|
      invariant keys' == keys + KeysOf(GroupEnvs(groups[..i]))
    {
      keys' := Collect(keys', groups[i].env);
      assert groups[..i + 1][..i] == groups[..i];
      KeysOfConcat(GroupEnvs(groups[..i]), groups[i].env);
    }
    assert groups[..|groups|] == groups;
  }

  method CollectTargets(keys: set<string>, targets: seq<Target>) returns (keys': set<string>)
    ensures keys' == keys + KeysOf(TargetEnvs(targets))
  {
    keys' := keys;
    for i := 0 to |targets|
      invariant keys' == keys + KeysOf(TargetEnvs(targets[..i]))
    {
      keys' := Collect(keys', targets[i].env);
      assert targets[..i + 1][..i] == targets[..i];
      KeysOfConcat(TargetEnvs(targets[..i]), targets[i].env);
    }
    assert targets[..|targets|] == targets;
  }

  method UserProvidedEnvKeys(request: Request) returns (keys: set<string>)
    ensures keys == KeysOf(AllSets(request))
  {
    keys := Collect({}, request.sharedEnv);
    keys := CollectGroups(keys, request.variableGroups);
    keys := CollectTargets(keys, request.targets);
    KeysOfConcat(request.sharedEnv, GroupEnvs(request.variableGroups));
    KeysOfConcat(request.sharedEnv + GroupEnvs(request.variableGroups), TargetEnvs(request.targets));
  }

  // ----- Roles, environments and addresses -----

  predicate Linkable(t: Provisioned) {
    t.deploymentTargetId != "" && !t.failed
  }

  predicate IsFrontend(t: Provisioned) {
    t.slot == Frontend || (t.slot == Standalone && t.provider == Vercel)
  }

  predicate LinkableFrontend(t: Provisioned) {
    Linkable(t) && IsFrontend(t)
  }

  predicate LinkableBackend(t: Provisioned) {
    Linkable(t) && !IsFrontend(t)
  }

  /** The environment a target serves; none when one target serves them all. */
  function CrossLinkEnvironment(t: Provisioned): Option<Environment> {
    if t.provider == Vercel then None
    else if t.renderEnvironment == Some(ProductionEnv) then Some(ProductionEnv)
    else Some(UatEnv)
  }

  predicate Serves(t: Provisioned, e: Environment) {
    CrossLinkEnvironment(t) == None || CrossLinkEnvironment(t) == Some(e)
  }

  function PublicUrl(t: Provisioned, e: Environment): (url: Option<string>)
    ensures url.Some? ==> url.value != ""
  {
    if t.provider == Render then
      if Trim(t.renderServiceUrl) != "" then Some(Trim(t.renderServiceUrl))
      else if t.projectName != "" then Some("https://" + t.projectName + ".onrender.com")
      else None
    else if t.projectName == "" then None
    else if e == ProductionEnv || Trim(t.vercelTeamSlug) == "" then Some("https://" + t.projectName + ".vercel.app")
    else Some("https://" + t.projectName + "-git-uat-" + Trim(t.vercelTeamSlug) + ".vercel.app")
  }

  /** The addresses the listed targets have in an environment, in order. */
  function Urls(ts: seq<Provisioned>, e: Environment): (urls: seq<string>)
    ensures forall u :: u in urls <==> exists t :: t in ts && PublicUrl(t, e) == Some(u)
  {
    if ts == [] then []
    else
      var rest := Urls(ts[1..], e);
      assert forall t :: t in ts <==> t == ts[0] || t in ts[1..];
      if PublicUrl(ts[0], e).Some? then [PublicUrl(ts[0], e).value] + rest else rest
  }

  function Serving(ts: seq<Provisioned>, e: Environment): (r: seq<Provisioned>)
    ensures forall t :: t in r <==> t in ts && Serves(t, e)
  {
    if ts == [] then []
    else
      assert forall t :: t in ts <==> t == ts[0] || t in ts[1..];
      (if Serves(ts[0], e) then [ts[0]] else []) + Serving(ts[1..], e)
  }

  // ----- The planned writes -----

  predicate Unnamed(userKeys: set<string>, e: Environment, v: Variable) {
    UserKey(e, v.key) !in userKeys
  }

  function Unclaimed(vars: seq<Variable>, e: Environment, userKeys: set<string>): (r: seq<Variable>)
    ensures forall v :: v in r <==> v in vars && Unnamed(userKeys, e, v)
  {
    Filter((v: Variable) => Unnamed(userKeys, e, v), vars)
  }

  function Write(t: Provisioned, e: Environment, vars: seq<Variable>, userKeys: set<string>): seq<Injection> {
    var kept := Unclaimed(vars, e, userKeys);
    if kept == [] then [] else [Injection(t.deploymentTargetId, PlaceOf(t, e), e, kept)]
  }

  function BackendEnvironment(b: Provisioned): Environment {
    if CrossLinkEnvironment(b).Some? then CrossLinkEnvironment(b).value else UatEnv
  }

  function BackendVars(origins: seq<string>): seq<Variable>
    requires origins != []
  {
    [Variable("FRONTEND_URL", origins[0]), Variable("CORS_ORIGINS", Join(origins, ","))]
  }

  function BackendWrites(b: Provisioned, frontends: seq<Provisioned>, userKeys: set<string>): seq<Injection> {
    var e := BackendEnvironment(b);
    var origins := Distinct(Urls(frontends, e));
    if origins == [] then [] else Write(b, e, BackendVars(origins), userKeys)
  }

  function FrontendEnvironments(f: Provisioned): seq<Environment> {
    if CrossLinkEnvironment(f).Some? then [CrossLinkEnvironment(f).value] else [UatEnv, ProductionEnv]
  }

  function FrontendVars(url: string): seq<Variable> {
    [Variable("NEXT_PUBLIC_API_URL", url), Variable("API_URL", url)]
  }

  function FrontendWrites(f: Provisioned, e: Environment, backends: seq<Provisioned>, userKeys: set<string>): seq<Injection> {
    var urls := Urls(Serving(backends, e), e);
    if urls == [] then [] else Write(f, e, FrontendVars(urls[0]), userKeys)
  }

  /** What the pass works on: the targets it links and the keys it must not touch. */
  datatype Links = Links(frontends: seq<Provisioned>, backends: seq<Provisioned>, userKeys: set<string>)

  function LinksOf(request: Request, targets: seq<Provisioned>): Links {
    Links(Filter(LinkableFrontend, targets), Filter(LinkableBackend, targets), KeysOf(AllSets(request)))
  }

  function BackendPlan(bs: seq<Provisioned>, links: Links): seq<Injection> {
    if bs == [] then []
    else BackendPlan(bs[..|bs| - 1], links) + BackendWrites(bs[|bs| - 1], links.frontends, links.userKeys)
  }

  function FrontendPlanOn(f: Provisioned, es: seq<Environment>, links: Links): seq<Injection> {
    if es == [] then []
    else FrontendPlanOn(f, es[..|es| - 1], links) + FrontendWrites(f, es[|es| - 1], links.backends, links.userKeys)
  }

  function FrontendPlan(fs: seq<Provisioned>, links: Links): seq<Injection> {
    if fs == [] then []
    else FrontendPlan(fs[..|fs| - 1], links) + FrontendPlanOn(fs[|fs| - 1], FrontendEnvironments(fs[|fs| - 1]), links)
  }

  /** Every write of the pass, in order; none unless there are both roles to link. */
  function LinkPlan(links: Links): seq<Injection> {
    if links.frontends == [] || links.backends == [] then []
    else BackendPlan(links.backends, links) + FrontendPlan(links.frontends, links)
  }

  // ----- Carrying the plan out -----

  /** What the providers hold, by place and key. */
  type Values = map<(Place, string), string>

  /** Whether a provider stored a key in its n-th call; a call that throws stores none. */
  type Answers = (nat, string) -> bool

  function Stored(values: Values, inj: Injection, vars: seq<Variable>, answers: Answers, n: nat): Values {
    if vars == [] then values
    else
      var last := vars[|vars| - 1];
      var before := Stored(values, inj, vars[..|vars| - 1], answers, n);
      if answers(n, last.key) then before[(inj.place, last.key) := last.value] else before
  }

  function Carried(values: Values, plan: seq<Injection>, answers: Answers, n: nat): Values {
    if plan == [] then values
    else
      var inj := plan[|plan| - 1];
      Stored(Carried(values, plan[..|plan| - 1], answers, n), inj, inj.vars, answers, n + |plan| - 1)
  }

  lemma FrontendPlanSnoc(plan: seq<Injection>, fs: seq<Provisioned>, i: nat, links: Links)
    requires i < |fs|
    ensures plan + FrontendPlan(fs[..i + 1], links) ==
            plan + FrontendPlan(fs[..i], links) + FrontendPlanOn(fs[i], FrontendEnvironments(fs[i]), links)
  {
    PrefixGrows(fs, i);
    Assoc(plan, FrontendPlan(fs[..i], links), FrontendPlanOn(fs[i], FrontendEnvironments(fs[i]), links));
  }

  lemma FrontendPlanOnSnoc(plan: seq<Injection>, f: Provisioned, es: seq<Environment>, j: nat, links: Links)
    requires j < |es|
    ensures plan + FrontendPlanOn(f, es[..j + 1], links) ==
            plan + FrontendPlanOn(f, es[..j], links) + FrontendWrites(f, es[j], links.backends, links.userKeys)
  {
    PrefixGrows(es, j);
    Assoc(plan, FrontendPlanOn(f, es[..j], links), FrontendWrites(f, es[j], links.backends, links.userKeys));
  }

  lemma BackendPlanSnoc(bs: seq<Provisioned>, i: nat, links: Links)
    requires i < |bs|
    ensures BackendPlan(bs[..i + 1], links) ==
            BackendPlan(bs[..i], links) + BackendWrites(bs[i], links.frontends, links.userKeys)
  {
    PrefixGrows(bs, i);
  }

  class EnvStore {
    var values: Values
    var calls: nat

    constructor (values: Values)
      ensures this.values == values && calls == 0
    {
      this.values, calls := values, 0;
    }

    ghost predicate Performed(before: Values, n: nat, plan: seq<Injection>, answers: Answers)
      reads this
    {
      values == Carried(before, plan, answers, n) && calls == n + |plan|
    }

    method InjectEnvVars(t: Provisioned, e: Environment, vars: seq<Variable>, userKeys: set<string>, answers: Answers,
                         ghost before: Values, ghost n: nat, ghost plan: seq<Injection>)
      requires Performed(before, n, plan, answers)
      modifies this
      ensures Performed(before, n, plan + Write(t, e, vars, userKeys), answers)
    {
      var kept := Unclaimed(vars, e, userKeys);
      if kept == [] {
        assert plan + [] == plan;
        return;
      }
      var inj := Injection(t.deploymentTargetId, PlaceOf(t, e), e, kept);
      values := Stored(values, inj, kept, answers, calls);
      calls := calls + 1;
      assert (plan + [inj])[..|plan + [inj]| - 1] == plan;
    }

    method LinkBackends(links: Links, answers: Answers, ghost before: Values, ghost n: nat)
      requires Performed(before, n, [], answers)
      modifies this
      ensures Performed(before, n, BackendPlan(links.backends, links), answers)
    {
      var backends := links.backends;
      for i := 0 to |backends|
        invariant Performed(before, n, BackendPlan(backends[..i], links), answers)
      {
        ghost var soFar := BackendPlan(backends[..i], links);
        BackendPlanSnoc(backends, i, links);
        var environment := BackendEnvironment(backends[i]);
        var origins := Distinct(Urls(links.frontends, environment));
        if origins == [] {
          NoMore(soFar);
          continue;
        }
        InjectEnvVars(backends[i], environment, BackendVars(origins), links.userKeys, answers, before, n, soFar);
      }
      assert backends[..|backends|] == backends;
    }

    method LinkFrontend(f: Provisioned, links: Links, answers: Answers,
                        ghost before: Values, ghost n: nat, ghost plan: seq<Injection>)
      requires Performed(before, n, plan, answers)
      modifies this
      ensures Performed(before, n, plan + FrontendPlanOn(f, FrontendEnvironments(f), links), answers)
    {
      var environments := FrontendEnvironments(f);
      NoMore(plan);
      for j := 0 to |environments|
        invariant Performed(before, n, plan + FrontendPlanOn(f, environments[..j], links), answers)
      {
        ghost var soFar := plan + FrontendPlanOn(f, environments[..j], links);
        FrontendPlanOnSnoc(plan, f, environments, j, links);
        var environment := environments[j];
        var urls := Urls(Serving(links.backends, environment), environment);
        if urls == [] {
          NoMore(soFar);
          continue;
        }
        InjectEnvVars(f, environment, FrontendVars(urls[0]), links.userKeys, answers, before, n, soFar);
      }
      assert environments[..|environments|] == environments;
    }

    method LinkFrontends(links: Links, answers: Answers, ghost before: Values, ghost n: nat, ghost plan: seq<Injection>)
      requires Performed(before, n, plan, answers)
      modifies this
      ensures Performed(before, n, plan + FrontendPlan(links.frontends, links), answers)
    {
      var frontends := links.frontends;
      NoMore(plan);
      for i := 0 to |frontends|
        invariant Performed(before, n, plan + FrontendPlan(frontends[..i], links), answers)
      {
        FrontendPlanSnoc(plan, frontends, i, links);
        LinkFrontend(frontends[i], links, answers, before, n, plan + FrontendPlan(frontends[..i], links));
      }
      assert frontends[..|frontends|] == frontends;
    }

    /** The pass carries out the link plan, whatever the providers answer. */
    method CrossLinkServiceUrls(request: Request, targets: seq<Provisioned>, answers: Answers)
      modifies this
      ensures values == if request.enabled then Carried(old(values), LinkPlan(LinksOf(request, targets)), answers, old(calls))
                        else old(values)
      ensures calls == old(calls) + if request.enabled then |LinkPlan(LinksOf(request, targets))| else 0
    {
      if !request.enabled {
        return;
      }
      var userKeys := UserProvidedEnvKeys(request);
      var links := Links(Filter(LinkableFrontend, targets), Filter(LinkableBackend, targets), userKeys);
      if links.frontends == [] || links.backends == [] {
        return;
      }
      LinkBackends(links, answers, values, calls);
      LinkFrontends(links, answers, old(values), old(calls), BackendPlan(links.backends, links));
    }
  }

  // ----- What the plan contains -----

  ghost predicate Planned(inj: Injection, links: Links) {
    || (exists b :: b in links.backends && inj in BackendWrites(b, links.frontends, links.userKeys))
    || (exists f, e :: f in links.frontends && e in FrontendEnvironments(f)
                     && inj in FrontendWrites(f, e, links.backends, links.userKeys))
  }

  lemma {:induction false} BackendPlanMembers(bs: seq<Provisioned>, links: Links, inj: Injection)
    ensures inj in BackendPlan(bs, links) <==> exists b :: b in bs && inj in BackendWrites(b, links.frontends, links.userKeys)
  {
    if bs != [] {
      var init, last := bs[..|bs| - 1], bs[|bs| - 1];
      BackendPlanMembers(init, links, inj);
      assert forall b :: b in bs <==> b in init || b == last;
    }
  }

  lemma {:induction false} FrontendPlanOnMembers(f: Provisioned, es: seq<Environment>, links: Links, inj: Injection)
    ensures inj in FrontendPlanOn(f, es, links) <==>
            exists e :: e in es && inj in FrontendWrites(f, e, links.backends, links.userKeys)
  {
    if es != [] {
      var init, last := es[..|es| - 1], es[|es| - 1];
      FrontendPlanOnMembers(f, init, links, inj);
      assert forall e :: e in es <==> e in init || e == last;
    }
  }

  lemma {:induction false} FrontendPlanMembers(fs: seq<Provisioned>, links: Links, inj: Injection)
    ensures inj in FrontendPlan(fs, links) <==>
            exists f, e :: f in fs && e in FrontendEnvironments(f) && inj in FrontendWrites(f, e, links.backends, links.userKeys)
  {
    if fs != [] {
      var init, last := fs[..|fs| - 1], fs[|fs| - 1];
      FrontendPlanMembers(init, links, inj);
      FrontendPlanOnMembers(last, FrontendEnvironments(last), links, inj);
      assert forall f :: f in fs <==> f in init || f == last;
    }
  }

  lemma LinkPlanMembers(links: Links, inj: Injection)
    ensures inj in LinkPlan(links) <==> links.frontends != [] && links.backends != [] && Planned(inj, links)
  {
    BackendPlanMembers(links.backends, links, inj);
    FrontendPlanMembers(links.frontends, links, inj);
  }

  lemma BackendShape(b: Provisioned, links: Links, inj: Injection, v: Variable)
    requires inj in BackendWrites(b, links.frontends, links.userKeys) && v in inj.vars
    ensures inj.targetId == b.deploymentTargetId && inj.environment == BackendEnvironment(b)
    ensures inj.place == PlaceOf(b, inj.environment)
    ensures UserKey(inj.environment, v.key) !in links.userKeys
    ensures var origins := Distinct(Urls(links.frontends, BackendEnvironment(b)));
            origins != [] && v in BackendVars(origins)
  {
  }

  lemma FrontendShape(f: Provisioned, e: Environment, links: Links, inj: Injection, v: Variable)
    requires inj in FrontendWrites(f, e, links.backends, links.userKeys) && v in inj.vars
    ensures inj.targetId == f.deploymentTargetId && inj.environment == e && inj.place == PlaceOf(f, e)
    ensures UserKey(inj.environment, v.key) !in links.userKeys
    ensures var urls := Urls(Serving(links.backends, e), e); urls != [] && v in FrontendVars(urls[0])
  {
  }

  predicate ApiKey(key: string) {
    key == "API_URL" || key == "NEXT_PUBLIC_API_URL"
  }

  lemma BackendKeys(origins: seq<string>, v: Variable)
    requires origins != [] && v in BackendVars(origins)
    ensures !ApiKey(v.key) && (v.key == "CORS_ORIGINS" || v.key == "FRONTEND_URL")
    ensures v.key == "CORS_ORIGINS" ==> v.value == Join(origins, ",")
    ensures v.key == "FRONTEND_URL" ==> v.value == origins[0]
  {
    assert "CORS_ORIGINS"[0] == 'C' && "FRONTEND_URL"[0] == 'F';
  }

  lemma FrontendKeys(url: string, v: Variable)
    requires v in FrontendVars(url)
    ensures ApiKey(v.key) && v.key != "CORS_ORIGINS" && v.key != "FRONTEND_URL" && v.value == url
  {
  }

  // ----- Who is told what, in terms of providers and Render environments -----

  /** The roles: the created targets by their slots, where a standalone Vercel project is a
      frontend and a standalone Render service a backend. */
  lemma LinkedRoles(request: Request, targets: seq<Provisioned>, t: Provisioned)
    ensures t in LinksOf(request, targets).frontends <==>
            t in targets && t.deploymentTargetId != "" && !t.failed
            && (t.slot == Frontend || (t.slot == Standalone && t.provider == Vercel))
    ensures t in LinksOf(request, targets).backends <==>
            t in targets && t.deploymentTargetId != "" && !t.failed
            && (t.slot == Backend || (t.slot == Standalone && t.provider == Render))
  {
  }

  /** What the user named: a key in the shared sets, in any group's or in any target's. */
  lemma NamedInRequest(request: Request, e: Environment, key: string)
    ensures Named(AllSets(request), e, key) <==>
            Named(request.sharedEnv, e, key)
            || (exists g :: g in request.variableGroups && Named(g.env, e, key))
            || (exists t :: t in request.targets && Named(t.env, e, key))
  {
    InGroupEnvs(request.variableGroups, e, key);
    InTargetEnvs(request.targets, e, key);
    NamedConcat(request.sharedEnv, GroupEnvs(request.variableGroups), e, key);
    NamedConcat(request.sharedEnv + GroupEnvs(request.variableGroups), TargetEnvs(request.targets), e, key);
  }

  lemma NamedConcat(a: seq<EnvSet>, b: seq<EnvSet>, e: Environment, key: string)
    ensures Named(a + b, e, key) <==> Named(a, e, key) || Named(b, e, key)
  {
    assert forall s :: s in a + b <==> s in a || s in b;
  }

  lemma {:induction false} InGroupEnvs(gs: seq<VariableGroup>, e: Environment, key: string)
    ensures Named(GroupEnvs(gs), e, key) <==> exists g :: g in gs && Named(g.env, e, key)
  {
    if gs != [] {
      var init, last := gs[..|gs| - 1], gs[|gs| - 1];
      InGroupEnvs(init, e, key);
      NamedConcat(GroupEnvs(init), last.env, e, key);
      InitAndLast(gs);
      assert forall g :: g in gs <==> g in init || g == last;
    }
  }

  lemma {:induction false} InTargetEnvs(ts: seq<Target>, e: Environment, key: string)
    ensures Named(TargetEnvs(ts), e, key) <==> exists t :: t in ts && Named(t.env, e, key)
  {
    if ts != [] {
      var init, last := ts[..|ts| - 1], ts[|ts| - 1];
      InTargetEnvs(init, e, key);
      NamedConcat(TargetEnvs(init), last.env, e, key);
      InitAndLast(ts);
      assert forall t :: t in ts <==> t in init || t == last;
    }
  }

  /** The stages a target stands for: a Vercel project for both, a Render service for
      production if that is its Render environment and else for uat. */
  lemma StagesOf(t: Provisioned, e: Environment)
    ensures e != TestEnv ==>
              (Serves(t, e) <==> t.provider == Vercel || (t.renderEnvironment == Some(ProductionEnv) <==> e == ProductionEnv))
    ensures e in FrontendEnvironments(t) <==>
              e != TestEnv && (t.provider == Vercel || (t.renderEnvironment == Some(ProductionEnv) <==> e == ProductionEnv))
    ensures BackendEnvironment(t) ==
              if t.provider == Render && t.renderEnvironment == Some(ProductionEnv) then ProductionEnv else UatEnv
  {
  }

  /** Two writes meet iff they are to one service and, on Vercel, both or neither for production. */
  lemma SamePlaceIff(t: Provisioned, e: Environment, t': Provisioned, e': Environment)
    ensures PlaceOf(t, e) == PlaceOf(t', e') <==>
            && t.provider == t'.provider && t.service == t'.service
            && (t.provider == Vercel ==> (e == ProductionEnv <==> e' == ProductionEnv))
  {
  }

  /** The address of a Render service: the one it reports, else its default one. */
  lemma RenderAddress(t: Provisioned, e: Environment)
    requires t.provider == Render
    ensures Trim(t.renderServiceUrl) != "" ==> PublicUrl(t, e) == Some(Trim(t.renderServiceUrl))
    ensures Trim(t.renderServiceUrl) == "" && t.projectName != "" ==>
              PublicUrl(t, e) == Some("https://" + t.projectName + ".onrender.com")
    ensures Trim(t.renderServiceUrl) == "" && t.projectName == "" ==> PublicUrl(t, e) == None
  {
  }

  /** The address of a Vercel project: its uat alias outside production when the team is
      known, else its production domain. */
  lemma VercelAddress(t: Provisioned, e: Environment)
    requires t.provider == Vercel
    ensures t.projectName == "" ==> PublicUrl(t, e) == None
    ensures t.projectName != "" && (e == ProductionEnv || Trim(t.vercelTeamSlug) == "") ==>
              PublicUrl(t, e) == Some("https://" + t.projectName + ".vercel.app")
    ensures t.projectName != "" && e != ProductionEnv && Trim(t.vercelTeamSlug) != "" ==>
              PublicUrl(t, e) == Some("https://" + t.projectName + "-git-uat-" + Trim(t.vercelTeamSlug) + ".vercel.app")
  {
  }

  /** The first listed target with an address, among those that stand for the environment
      when `staged`. */
  predicate FirstWithAddress(ts: seq<Provisioned>, i: nat, e: Environment, staged: bool) {
    && i < |ts| && PublicUrl(ts[i], e).Some? && (staged ==> Serves(ts[i], e))
    && forall j :: 0 <= j < i && (staged ==> Serves(ts[j], e)) ==> PublicUrl(ts[j], e).None?
  }

  lemma {:induction false} FirstUrl(ts: seq<Provisioned>, e: Environment) returns (i: nat)
    requires Urls(ts, e) != []
    ensures FirstWithAddress(ts, i, e, false) && PublicUrl(ts[i], e) == Some(Urls(ts, e)[0])
  {
    if PublicUrl(ts[0], e).Some? {
      i := 0;
    } else {
      i := FirstUrl(ts[1..], e);
      i := i + 1;
    }
  }

  lemma {:induction false} FirstServingUrl(ts: seq<Provisioned>, e: Environment) returns (i: nat)
    requires Urls(Serving(ts, e), e) != []
    ensures FirstWithAddress(ts, i, e, true) && PublicUrl(ts[i], e) == Some(Urls(Serving(ts, e), e)[0])
  {
    var rest := Serving(ts[1..], e);
    if Serves(ts[0], e) {
      assert ([ts[0]] + rest)[1..] == rest;
    } else {
      assert [] + rest == rest;
    }
    if Serves(ts[0], e) && PublicUrl(ts[0], e).Some? {
      i := 0;
    } else {
      i := FirstServingUrl(ts[1..], e);
      i := i + 1;
    }
  }

  /** An API address is written for uat or production, into a frontend that stands for it,
      and is that of the first backend with an address that stands for it too. */
  lemma ApiUrlComesFromServingBackend(links: Links, inj: Injection, v: Variable) returns (f: Provisioned, i: nat)
    requires inj in LinkPlan(links) && v in inj.vars && ApiKey(v.key)
    ensures inj.environment != TestEnv
    ensures f in links.frontends && f.deploymentTargetId == inj.targetId && inj.place == PlaceOf(f, inj.environment)
    ensures f.provider == Vercel || (f.renderEnvironment == Some(ProductionEnv) <==> inj.environment == ProductionEnv)
    ensures FirstWithAddress(links.backends, i, inj.environment, true) && PublicUrl(links.backends[i], inj.environment) == Some(v.value)
    ensures var b := links.backends[i];
            b.provider == Vercel || (b.renderEnvironment == Some(ProductionEnv) <==> inj.environment == ProductionEnv)
  {
    LinkPlanMembers(links, inj);
    if b :| b in links.backends && inj in BackendWrites(b, links.frontends, links.userKeys) {
      BackendShape(b, links, inj, v);
      BackendKeys(Distinct(Urls(links.frontends, BackendEnvironment(b))), v);
    }
    var e;
    f, e :| f in links.frontends && e in FrontendEnvironments(f)
            && inj in FrontendWrites(f, e, links.backends, links.userKeys);
    FrontendShape(f, e, links, inj, v);
    StagesOf(f, e);
    FrontendKeys(Urls(Serving(links.backends, e), e)[0], v);
    i := FirstServingUrl(links.backends, e);
    StagesOf(links.backends[i], e);
  }

  /** The distinct addresses the frontends have in an environment. */
  ghost predicate AreOrigins(origins: seq<string>, frontends: seq<Provisioned>, e: Environment) {
    NoRepeats(origins) && forall u :: u in origins <==> exists f :: f in frontends && PublicUrl(f, e) == Some(u)
  }

  ghost predicate IsFirstAddress(url: string, ts: seq<Provisioned>, e: Environment) {
    exists i: nat :: FirstWithAddress(ts, i, e, false) && PublicUrl(ts[i], e) == Some(url)
  }

  lemma BackendOf(links: Links, inj: Injection, v: Variable) returns (b: Provisioned)
    requires inj in LinkPlan(links) && v in inj.vars && !ApiKey(v.key)
    ensures b in links.backends && inj in BackendWrites(b, links.frontends, links.userKeys)
  {
    LinkPlanMembers(links, inj);
    if f, e :| f in links.frontends && inj in FrontendWrites(f, e, links.backends, links.userKeys) {
      FrontendShape(f, e, links, inj, v);
      FrontendKeys(Urls(Serving(links.backends, e), e)[0], v);
    }
    b :| b in links.backends && inj in BackendWrites(b, links.frontends, links.userKeys);
  }

  lemma BackendValues(fs: seq<Provisioned>, e: Environment, v: Variable)
    requires var origins := Distinct(Urls(fs, e)); origins != [] && v in BackendVars(origins)
    ensures AreOrigins(Distinct(Urls(fs, e)), fs, e)
    ensures v.key == "CORS_ORIGINS" ==> v.value == Join(Distinct(Urls(fs, e)), ",")
    ensures v.key == "FRONTEND_URL" ==> IsFirstAddress(v.value, fs, e)
  {
    BackendKeys(Distinct(Urls(fs, e)), v);
    var i := FirstUrl(fs, e);
    FirstOfDistinct(Urls(fs, e));
    assert IsFirstAddress(Urls(fs, e)[0], fs, e);
  }

  /** A backend's origins are exactly the distinct addresses of the frontends in its own
      stage, production for a Render service in the production environment and else uat;
      its frontend address is that of the first of them. */
  lemma OriginsAreTheFrontendUrls(links: Links, inj: Injection, v: Variable) returns (b: Provisioned, origins: seq<string>)
    requires inj in LinkPlan(links) && v in inj.vars && !ApiKey(v.key)
    ensures b in links.backends && b.deploymentTargetId == inj.targetId && inj.place == PlaceOf(b, inj.environment)
    ensures inj.environment ==
              if b.provider == Render && b.renderEnvironment == Some(ProductionEnv) then ProductionEnv else UatEnv
    ensures AreOrigins(origins, links.frontends, inj.environment)
    ensures v.key == "CORS_ORIGINS" ==> v.value == Join(origins, ",")
    ensures v.key == "FRONTEND_URL" ==> IsFirstAddress(v.value, links.frontends, inj.environment)
  {
    b := BackendOf(links, inj, v);
    BackendShape(b, links, inj, v);
    StagesOf(b, inj.environment);
    origins := Distinct(Urls(links.frontends, inj.environment));
    BackendValues(links.frontends, inj.environment, v);
  }

  lemma {:induction false} FirstOfDistinct(s: seq<string>)
    requires s != []
    ensures Distinct(s) != [] && Distinct(s)[0] == s[0]
  {
    if |s| > 1 {
      FirstOfDistinct(s[..|s| - 1]);
    }
  }

  /** Conversely, every linked backend is told both keys for its own stage when a frontend
      has an address, unless the user set them. */
  lemma EveryBackendIsTold(links: Links, b: Provisioned, f: Provisioned, key: string) returns (inj: Injection, v: Variable)
    requires key == "FRONTEND_URL" || key == "CORS_ORIGINS"
    requires var e := if b.provider == Render && b.renderEnvironment == Some(ProductionEnv) then ProductionEnv else UatEnv;
             b in links.backends && f in links.frontends && PublicUrl(f, e).Some? && UserKey(e, key) !in links.userKeys
    ensures inj in LinkPlan(links) && v in inj.vars && v.key == key
    ensures inj.targetId == b.deploymentTargetId && inj.place == PlaceOf(b, inj.environment)
    ensures inj.environment ==
              if b.provider == Render && b.renderEnvironment == Some(ProductionEnv) then ProductionEnv else UatEnv
  {
    var e := BackendEnvironment(b);
    StagesOf(b, e);
    assert PublicUrl(f, e).value in Urls(links.frontends, e);
    var vars := BackendVars(Distinct(Urls(links.frontends, e)));
    v := if key == "FRONTEND_URL" then vars[0] else vars[1];
    assert v in Unclaimed(vars, e, links.userKeys);
    inj := BackendWrites(b, links.frontends, links.userKeys)[0];
    LinkPlanMembers(links, inj);
  }

  /** And every linked frontend is told both API keys for each stage it stands for, a Vercel
      project therefore for uat and for production, when a backend of that stage has an
      address, unless the user set them. */
  lemma EveryFrontendIsTold(links: Links, f: Provisioned, e: Environment, b: Provisioned, key: string)
    returns (inj: Injection, v: Variable)
    requires ApiKey(key) && e != TestEnv && f in links.frontends && b in links.backends
    requires f.provider == Vercel || (f.renderEnvironment == Some(ProductionEnv) <==> e == ProductionEnv)
    requires b.provider == Vercel || (b.renderEnvironment == Some(ProductionEnv) <==> e == ProductionEnv)
    requires PublicUrl(b, e).Some? && UserKey(e, key) !in links.userKeys
    ensures inj in LinkPlan(links) && v in inj.vars && v.key == key
    ensures inj.targetId == f.deploymentTargetId && inj.environment == e && inj.place == PlaceOf(f, e)
  {
    StagesOf(f, e);
    StagesOf(b, e);
    var urls := Urls(Serving(links.backends, e), e);
    assert PublicUrl(b, e).value in urls;
    var vars := FrontendVars(urls[0]);
    v := if key == "API_URL" then vars[1] else vars[0];
    assert v in Unclaimed(vars, e, links.userKeys);
    inj := FrontendWrites(f, e, links.backends, links.userKeys)[0];
    LinkPlanMembers(links, inj);
  }
}
