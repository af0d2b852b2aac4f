/** What the cross-linking pass leaves alone, and what it does not. */
module CrossLinkFrame {
  import opened Sequences
  import opened Text
  import opened Providers
  import opened ProvisioningRequest
  import opened CrossLink
  import EnvSets

  /** One key at one place. */
  type Cell = (Place, string)

  predicate WritesTo(inj: Injection, v: Variable, k: Cell) {
    v in inj.vars && (inj.place, v.key) == k
  }

  /** The value, or its absence, is the same. */
  predicate SameAt(before: Values, after: Values, k: Cell) {
    (k in after <==> k in before) && (k in after ==> after[k] == before[k])
  }

  // ----- Carrying a plan out -----

  lemma {:induction false} StoredLeaves(values: Values, inj: Injection, vars: seq<Variable>, answers: Answers, n: nat, k: Cell)
    requires forall v :: v in vars ==> k != (inj.place, v.key)
    ensures SameAt(values, Stored(values, inj, vars, answers, n), k)
  {
    if vars != [] {
      assert vars[|vars| - 1] in vars;
      StoredLeaves(values, inj, vars[..|vars| - 1], answers, n, k);
    }
  }

  lemma {:induction false} CarriedLeaves(values: Values, plan: seq<Injection>, answers: Answers, n: nat, k: Cell)
    requires forall inj, v :: inj in plan ==> !WritesTo(inj, v, k)
    ensures SameAt(values, Carried(values, plan, answers, n), k)
  {
    if plan != [] {
      var inj := plan[|plan| - 1];
      CarriedLeaves(values, plan[..|plan| - 1], answers, n, k);
      forall v | v in inj.vars ensures k != (inj.place, v.key) {
        assert !WritesTo(inj, v, k);
      }
      StoredLeaves(Carried(values, plan[..|plan| - 1], answers, n), inj, inj.vars, answers, n + |plan| - 1, k);
    }
  }

  lemma {:induction false} StoredOnlyIfAccepted(values: Values, inj: Injection, vars: seq<Variable>, answers: Answers, n: nat, k: Cell)
    requires !answers(n, k.1)
    ensures SameAt(values, Stored(values, inj, vars, answers, n), k)
  {
    if vars != [] {
      StoredOnlyIfAccepted(values, inj, vars[..|vars| - 1], answers, n, k);
    }
  }

  /** A key that no provider accepts in any of the calls stays as it was, everywhere. */
  lemma {:induction false} CarriedOnlyIfAccepted(values: Values, plan: seq<Injection>, answers: Answers, n: nat, k: Cell)
    requires forall i :: n <= i < n + |plan| ==> !answers(i, k.1)
    ensures SameAt(values, Carried(values, plan, answers, n), k)
  {
    if plan != [] {
      var init, last := plan[..|plan| - 1], plan[|plan| - 1];
      CarriedOnlyIfAccepted(values, init, answers, n, k);
      StoredOnlyIfAccepted(Carried(values, init, answers, n), last, last.vars, answers, n + |plan| - 1, k);
    }
  }

  /** Providers that store everything. */
  const Accepting: Answers := (_, _) => true

  /** Some variable of the call is what the place holds afterwards. */
  lemma {:induction false} StoredWins(values: Values, inj: Injection, vars: seq<Variable>, n: nat, k: Cell)
    returns (v: Variable)
    requires exists x :: x in vars && (inj.place, x.key) == k
    ensures v in vars && (inj.place, v.key) == k
    ensures var after := Stored(values, inj, vars, Accepting, n); k in after && after[k] == v.value
  {
    var last := vars[|vars| - 1];
    if (inj.place, last.key) == k {
      v := last;
    } else {
      v := StoredWins(values, inj, vars[..|vars| - 1], n, k);
    }
  }

  lemma {:induction false} CarriedWins(values: Values, plan: seq<Injection>, n: nat, k: Cell)
    returns (inj: Injection, v: Variable)
    requires exists i, x :: i in plan && WritesTo(i, x, k)
    ensures inj in plan && WritesTo(inj, v, k)
    ensures var after := Carried(values, plan, Accepting, n); k in after && after[k] == v.value
  {
    var init, last := plan[..|plan| - 1], plan[|plan| - 1];
    if x :| WritesTo(last, x, k) {
      inj := last;
      v := StoredWins(Carried(values, init, Accepting, n), last, last.vars, n + |plan| - 1, k);
    } else {
      inj, v := CarriedWins(values, init, n, k);
      forall y | y in last.vars ensures k != (last.place, y.key) {
        assert !WritesTo(last, y, k);
      }
      StoredLeaves(Carried(values, init, Accepting, n), last, last.vars, Accepting, n + |plan| - 1, k);
    }
  }

  // ----- What the pass may write where -----

  /** A linked backend at that place is told a key the user did not name for the backend's
      own stage, and some frontend has an address there. */
  predicate BackendExposed(request: Request, links: Links, b: Provisioned, e: Environment, k: Cell) {
    && e == (if b.provider == Render && b.renderEnvironment == Some(ProductionEnv) then ProductionEnv else UatEnv)
    && PlaceOf(b, e) == k.0 && (k.1 == "FRONTEND_URL" || k.1 == "CORS_ORIGINS")
    && !Named(AllSets(request), e, k.1) && exists f :: f in links.frontends && PublicUrl(f, e).Some?
  }

  /** A linked frontend at that place is told a key the user did not name for that
      environment, and some backend serving it has an address. */
  predicate FrontendExposed(request: Request, links: Links, f: Provisioned, e: Environment, k: Cell) {
    && e != TestEnv && (f.provider == Vercel || (f.renderEnvironment == Some(ProductionEnv) <==> e == ProductionEnv))
    && PlaceOf(f, e) == k.0 && (k.1 == "API_URL" || k.1 == "NEXT_PUBLIC_API_URL") && !Named(AllSets(request), e, k.1)
    && exists b :: b in links.backends && PublicUrl(b, e).Some?
                && (b.provider == Vercel || (b.renderEnvironment == Some(ProductionEnv) <==> e == ProductionEnv))
  }

  /** Some target is told that key at that place for environment `e`. */
  ghost predicate Exposed(request: Request, links: Links, e: Environment, k: Cell) {
    || (exists b :: b in links.backends && BackendExposed(request, links, b, e, k))
    || (exists f :: f in links.frontends && FrontendExposed(request, links, f, e, k))
  }

  lemma BackendWritesTo(request: Request, links: Links, b: Provisioned, inj: Injection, v: Variable, k: Cell)
    requires links.userKeys == KeysOf(AllSets(request)) && b in links.backends
    requires inj in BackendWrites(b, links.frontends, links.userKeys) && WritesTo(inj, v, k)
    ensures BackendExposed(request, links, b, BackendEnvironment(b), k)
  {
    var e := BackendEnvironment(b);
    BackendShape(b, links, inj, v);
    StagesOf(b, e);
    KeysOfMeans(AllSets(request), e, v.key);
    var origins := Distinct(Urls(links.frontends, e));
    BackendKeys(origins, v);
    assert origins[0] in Urls(links.frontends, e);
  }

  lemma FrontendWritesTo(request: Request, links: Links, f: Provisioned, e: Environment, inj: Injection, v: Variable, k: Cell)
    requires links.userKeys == KeysOf(AllSets(request)) && e in FrontendEnvironments(f)
    requires inj in FrontendWrites(f, e, links.backends, links.userKeys) && WritesTo(inj, v, k)
    ensures FrontendExposed(request, links, f, e, k)
  {
    FrontendShape(f, e, links, inj, v);
    KeysOfMeans(AllSets(request), e, v.key);
    var urls := Urls(Serving(links.backends, e), e);
    FrontendKeys(urls[0], v);
    StagesOf(f, e);
    var i := FirstServingUrl(links.backends, e);
    StagesOf(links.backends[i], e);
    assert links.backends[i] in links.backends;
  }

  lemma WriteIsExposed(request: Request, links: Links, inj: Injection, v: Variable, k: Cell)
    requires links.userKeys == KeysOf(AllSets(request)) && inj in LinkPlan(links) && WritesTo(inj, v, k)
    ensures exists e :: Exposed(request, links, e, k)
  {
    LinkPlanMembers(links, inj);
    if b :| b in links.backends && inj in BackendWrites(b, links.frontends, links.userKeys) {
      BackendWritesTo(request, links, b, inj, v, k);
      assert Exposed(request, links, BackendEnvironment(b), k);
    } else {
      var f, e :| f in links.frontends && e in FrontendEnvironments(f)
                  && inj in FrontendWrites(f, e, links.backends, links.userKeys);
      FrontendWritesTo(request, links, f, e, inj, v, k);
      assert Exposed(request, links, e, k);
    }
  }

  lemma BackendIsWritten(request: Request, links: Links, b: Provisioned, e: Environment, k: Cell)
    requires links.userKeys == KeysOf(AllSets(request)) && b in links.backends && BackendExposed(request, links, b, e, k)
    ensures exists inj, v :: inj in LinkPlan(links) && WritesTo(inj, v, k)
  {
    KeysOfMeans(AllSets(request), e, k.1);
    var f :| f in links.frontends && PublicUrl(f, e).Some?;
    var inj, v := EveryBackendIsTold(links, b, f, k.1);
    assert WritesTo(inj, v, k);
  }

  lemma FrontendIsWritten(request: Request, links: Links, f: Provisioned, e: Environment, k: Cell)
    requires links.userKeys == KeysOf(AllSets(request)) && f in links.frontends && FrontendExposed(request, links, f, e, k)
    ensures exists inj, v :: inj in LinkPlan(links) && WritesTo(inj, v, k)
  {
    KeysOfMeans(AllSets(request), e, k.1);
    var b :| b in links.backends && PublicUrl(b, e).Some?
             && (b.provider == Vercel || (b.renderEnvironment == Some(ProductionEnv) <==> e == ProductionEnv));
    var inj, v := EveryFrontendIsTold(links, f, e, b, k.1);
    assert WritesTo(inj, v, k);
  }

  lemma ExposedIsWritten(request: Request, links: Links, e: Environment, k: Cell)
    requires links.userKeys == KeysOf(AllSets(request)) && Exposed(request, links, e, k)
    ensures exists inj, v :: inj in LinkPlan(links) && WritesTo(inj, v, k)
  {
    if f :| f in links.frontends && FrontendExposed(request, links, f, e, k) {
      FrontendIsWritten(request, links, f, e, k);
    } else {
      var b :| b in links.backends && BackendExposed(request, links, b, e, k);
      BackendIsWritten(request, links, b, e, k);
    }
  }

  // ----- What the user's values become -----

  /** Whatever the providers hold and answer, the pass leaves this key at this place alone. */
  ghost predicate Kept(request: Request, targets: seq<Provisioned>, n: nat, k: Cell) {
    forall values, answers :: SameAt(values, Carried(values, LinkPlan(LinksOf(request, targets)), answers, n), k)
  }

  /** A place keeps a key iff no linked target there is told it. */
  lemma KeptIff(request: Request, targets: seq<Provisioned>, n: nat, k: Cell)
    ensures Kept(request, targets, n, k) <==> forall e :: !Exposed(request, LinksOf(request, targets), e, k)
  {
    var links := LinksOf(request, targets);
    var plan := LinkPlan(links);
    if e :| Exposed(request, links, e, k) {
      ExposedIsWritten(request, links, e, k);
      var _, _ := CarriedWins(map[], plan, n, k);
      assert !SameAt(map[], Carried(map[], plan, Accepting, n), k);
    } else {
      forall inj, v | inj in plan ensures !WritesTo(inj, v, k) {
        if WritesTo(inj, v, k) {
          WriteIsExposed(request, links, inj, v, k);
        }
      }
      forall values, answers ensures SameAt(values, Carried(values, plan, answers, n), k) {
        CarriedLeaves(values, plan, answers, n, k);
      }
    }
  }

  /** A key the user named for one environment of a target keeps its value there exactly
      when no linked target at the same place is told the same key for another environment. */
  lemma NamedKeyIsKeptIff(request: Request, targets: seq<Provisioned>, n: nat, t: Provisioned, e: Environment, key: string)
    requires Named(AllSets(request), e, key)
    ensures Kept(request, targets, n, (PlaceOf(t, e), key)) <==>
            forall e' :: e' != e ==> !Exposed(request, LinksOf(request, targets), e', (PlaceOf(t, e), key))
  {
    KeptIff(request, targets, n, (PlaceOf(t, e), key));
    assert !Exposed(request, LinksOf(request, targets), e, (PlaceOf(t, e), key));
  }

  /** In particular a key named for every environment is kept on every target. */
  lemma KeyNamedEverywhereIsKept(request: Request, targets: seq<Provisioned>, n: nat, t: Provisioned, e: Environment, key: string)
    requires forall e' :: Named(AllSets(request), e', key)
    ensures Kept(request, targets, n, (PlaceOf(t, e), key))
  {
    NamedKeyIsKeptIff(request, targets, n, t, e, key);
    forall e' ensures !Exposed(request, LinksOf(request, targets), e', (PlaceOf(t, e), key)) {
      assert Named(AllSets(request), e', key);
    }
  }

  /** And a key named for production is kept on every Vercel project. */
  lemma ProductionKeyIsKeptOnVercel(request: Request, targets: seq<Provisioned>, n: nat, t: Provisioned, key: string)
    requires t.provider == Vercel && Named(AllSets(request), ProductionEnv, key)
    ensures Kept(request, targets, n, (PlaceOf(t, ProductionEnv), key))
  {
    NamedKeyIsKeptIff(request, targets, n, t, ProductionEnv, key);
  }

  // ----- A value the user named and loses -----

  /** An own Render backend on branch uat whose Render environment is `test`. */
  function TestBackend(mine: string): Target {
    Target(Backend, Render, Byo, None, Some("uat"), Some("api"), Some(TestEnv),
           [EnvSet(TestEnv, [Variable("CORS_ORIGINS", mine)])], "")
  }

  function WebFrontend(): Target {
    Target(Frontend, Vercel, Byo, None, Some("uat"), Some("web"), None, [], "")
  }

  function LossyRequest(mine: string): Request {
    Request(true, [], [], [TestBackend(mine), WebFrontend()])
  }

  const Api := Provisioned(Backend, Render, false, "t1", "srv-1", "api", "", "", Some(TestEnv))

  const Web := Provisioned(Frontend, Vercel, false, "t2", "prj-1", "web", "", "", None)

  lemma TargetEnvsSnoc(ts: seq<Target>, t: Target)
    ensures TargetEnvs(ts + [t]) == TargetEnvs(ts) + t.env
  {
    assert (ts + [t])[..|ts + [t]| - 1] == ts;
  }

  lemma LossyTargets(t: Target, u: Target)
    requires u.env == []
    ensures TargetEnvs([t, u]) == t.env
  {
    TargetEnvsSnoc([], t);
    TargetEnvsSnoc([t], u);
    SnocTwice([], t, u);
    assert [] + [t] == [t] && [] + [t, u] == [t, u];
    NoMore(t.env);
  }

  lemma LossySets(mine: string)
    ensures var r := LossyRequest(mine);
            && AllSets(r) == TestBackend(mine).env
            && EnvSets.Layers(r, TestBackend(mine), TestBackend(mine).env) == TestBackend(mine).env
  {
    LossyTargets(TestBackend(mine), WebFrontend());
  }

  lemma LossyLayers(mine: string)
    requires mine != ""
    ensures EnvSets.WritesFor(TestBackend(mine).env, TestEnv) == [Variable("CORS_ORIGINS", mine)]
  {
    var sets := TestBackend(mine).env;
    assert sets == [] + [sets[0]];
    EnvSets.WritesForSnoc([], sets[0], TestEnv);
    assert Filter(EnvSets.Writes, sets[0].vars[1..]) == [];
  }

  lemma LossyExposed(mine: string, links: Links)
    requires links.frontends == [Web] && links.backends == [Api]
    ensures Named(AllSets(LossyRequest(mine)), TestEnv, "CORS_ORIGINS")
    ensures Exposed(LossyRequest(mine), links, UatEnv, (PlaceOf(Api, TestEnv), "CORS_ORIGINS"))
  {
    var request, sets := LossyRequest(mine), TestBackend(mine).env;
    LossySets(mine);
    assert sets[0] in sets && Variable("CORS_ORIGINS", mine) in sets[0].vars;
    assert forall s :: s in sets ==> s.environment == TestEnv;
    assert !Named(AllSets(request), UatEnv, "CORS_ORIGINS");
    assert Web in links.frontends && PublicUrl(Web, UatEnv).Some?;
    assert Api in links.backends && BackendExposed(request, links, Api, UatEnv, (PlaceOf(Api, TestEnv), "CORS_ORIGINS"));
  }

  lemma LossyLinks(mine: string)
    ensures var links := LinksOf(LossyRequest(mine), [Api, Web]); links.frontends == [Web] && links.backends == [Api]
  {
    assert Filter(LinkableFrontend, [Api, Web][1..]) == [Web];
    assert Filter(LinkableBackend, [Api, Web][1..]) == [];
  }

  /** Layering gives the backend the user's origins for `test`; the pass sees none named for
      `uat`, and writes its own over them, into the same service. */
  lemma TestKeyIsLost(mine: string, values: Values, n: nat)
    requires mine != ""
    ensures var request, k := LossyRequest(mine), (PlaceOf(Api, TestEnv), "CORS_ORIGINS");
            && Named(AllSets(request), TestEnv, "CORS_ORIGINS")
            && EnvSets.TargetEnvironment(TestBackend(mine)) == TestEnv
            && EnvSets.WritesFor(EnvSets.Layers(request, TestBackend(mine), TestBackend(mine).env), TestEnv) ==
               [Variable("CORS_ORIGINS", mine)]
            && var after := Carried(values, LinkPlan(LinksOf(request, [Api, Web])), Accepting, n);
               k in after && after[k] == "https://" + "web" + ".vercel.app"
  {
    var request, k := LossyRequest(mine), (PlaceOf(Api, TestEnv), "CORS_ORIGINS");
    var links := LinksOf(request, [Api, Web]);
    LossySets(mine);
    LossyLayers(mine);
    LossyLinks(mine);
    LossyExposed(mine, links);
    ExposedIsWritten(request, links, UatEnv, k);
    PassWins(links, values, n, k);
  }

  lemma PassWins(links: Links, values: Values, n: nat, k: Cell)
    requires links.frontends == [Web] && k.1 == "CORS_ORIGINS"
    requires exists inj, v :: inj in LinkPlan(links) && WritesTo(inj, v, k)
    ensures var after := Carried(values, LinkPlan(links), Accepting, n);
            k in after && after[k] == "https://" + "web" + ".vercel.app"
  {
    var inj, v := CarriedWins(values, LinkPlan(links), n, k);
    var _, origins := OriginsAreTheFrontendUrls(links, inj, v);
    OnlyOrigin(links, inj.environment, origins);
  }

  lemma OnlyOrigin(links: Links, e: Environment, origins: seq<string>)
    requires links.frontends == [Web]
    requires AreOrigins(origins, links.frontends, e)
    ensures Join(origins, ",") == "https://" + "web" + ".vercel.app"
  {
    var url := "https://" + "web" + ".vercel.app";
    assert |origins| >= 2 ==> origins[0] != origins[1];
    TrimOfTrimmed("");
    assert PublicUrl(Web, e) == Some(url);
    assert Web in links.frontends && url in origins;
    forall i | 0 <= i < |origins| ensures origins[i] == url {
      assert origins[i] in origins;
    }
    assert origins == [url];
  }
}
