/** Whole runs of logins, membership webhooks, sweeps and console edits over the role table. */
module RoleRuns {
  import opened Sequences
  import opened Text
  import opened TeamRoles

  datatype State = State(users: Users, platformAdmins: PlatformAdmins)

  datatype Action =
    | FirstLogin(id: string, login: string, isOrgOwner: bool, lead: Answer, developer: Answer)
    | ReturningLogin(id: string, login: string, lead: Answer, developer: Answer)
    | Membership(id: string, lead: Answer, developer: Answer)
    | Sweep(rosters: Option<Rosters>)
    | ConsoleSet(actor: string, target: string, role: AppRole)
    | ConsoleReset(actor: string, target: string)
    | Grant(actor: string, target: string, platformRole: PlatformRole)
    | Revoke(actor: string, target: string)

  function SeedRole(mode: Mode, isOrgOwner: bool, lead: Answer, developer: Answer): AppRole {
    var seed := ResolveSeedRole(mode, isOrgOwner, lead, developer);
    if seed.Some? then seed.value else if isOrgOwner then Admin else Member
  }

  /** One atomic step.  A returning login never reports ownership; the grant and revoke
      routes admit super-admins only. */
  function Apply(mode: Mode, s: State, a: Action): State {
    match a
    case FirstLogin(id, login, isOrgOwner, lead, developer) =>
      if id in s.users then s
      else s.(users := s.users[id := User(Some(login), SeedRole(mode, isOrgOwner, lead, developer), GithubTeam, false)])
    case ReturningLogin(id, login, lead, developer) =>
      if id !in s.users || s.users[id].archived then s
      else
        var users := s.users[id := s.users[id].(login := Some(login))];
        s.(users := AfterSync(mode, users, id, ResolveRoleFromTeams(lead, developer)))
    case Membership(id, lead, developer) =>
      s.(users := AfterSync(mode, s.users, id, ResolveRoleFromTeams(lead, developer)))
    case Sweep(rosters) =>
      if mode != Enforce || rosters.None? || (rosters.value.leads == [] && rosters.value.developers == []) then s
      else s.(users := AfterSweep(s.users, rosters.value.leads))
    case ConsoleSet(actor, target, role) =>
      if ConsoleSetResult(s.users, s.platformAdmins, actor, target, role) != Done then s
      else s.(users := WithRole(s.users, target, role, Manual))
    case ConsoleReset(actor, target) =>
      if ConsoleResetResult(s.users, s.platformAdmins, actor, target) != Done then s
      else s.(users := WithRole(s.users, target, RoleOf(s.users, target), GithubTeam))
    case Grant(actor, target, role) =>
      if !IsSuperAdmin(s.platformAdmins, actor) || GrantResult(s.users, actor, target) != Done then s
      else s.(platformAdmins := s.platformAdmins[target := role])
    case Revoke(actor, target) =>
      if !IsSuperAdmin(s.platformAdmins, actor) || RevokeResult(s.platformAdmins, actor, target) != Done then s
      else s.(platformAdmins := s.platformAdmins - {target})
  }

  function Run(mode: Mode, s: State, actions: seq<Action>): State {
    if actions == [] then s
    else Apply(mode, Run(mode, s, actions[..|actions| - 1]), actions[|actions| - 1])
  }

  /** A login settles the account: a new one is inserted with its seeded role, an active one
      gets its login refreshed and its role synced, an archived one is left alone. */
  method SettleLogin(service: RoleService, id: string, login: string, isOrgOwner: bool, lead: Answer, developer: Answer)
    modifies service`users, service`audit
    ensures service.users ==
              if id in old(service.users) then Apply(service.mode, State(old(service.users), service.platformAdmins),
                                                     ReturningLogin(id, login, lead, developer)).users
              else Apply(service.mode, State(old(service.users), service.platformAdmins),
                         FirstLogin(id, login, isOrgOwner, lead, developer)).users
    ensures id in old(service.users) && old(service.users)[id].archived ==>
              service.users == old(service.users) && service.audit == old(service.audit)
    ensures id in old(service.users) && !old(service.users)[id].archived ==>
              && id in service.users && service.users[id] == old(service.users)[id].(login := Some(login), role := service.users[id].role)
              && ((service.mode == Enforce && old(service.users)[id].source == GithubTeam)
                  || service.users[id].role == old(service.users)[id].role)
    ensures id !in old(service.users) ==>
              && id in service.users && service.users[id].source == GithubTeam && service.audit == old(service.audit)
              && (service.users[id].role == Admin <==> isOrgOwner)
              && (service.users[id].role == Lead <==> !isOrgOwner && service.mode != Off && lead == Yes)
    ensures forall u :: u != id ==>
              && (u in service.users <==> u in old(service.users))
              && (u in service.users ==> service.users[u] == old(service.users)[u])
  {
    var users := service.users;
    if id !in users {
      var role := if isOrgOwner then Admin else Member;
      if service.mode != Off && !isOrgOwner && lead == Yes {
        role := Lead;
      }
      service.users := users[id := User(Some(login), role, GithubTeam, false)];
    } else if !users[id].archived {
      service.users := users[id := users[id].(login := Some(login))];
      var _ := service.SyncRoleForUser(id, false, lead, developer);
    }
  }

  /** The steps of a run are what the services do, behind the super-admin guard of the grant
      and revoke routes. */
  method Perform(service: RoleService, a: Action)
    requires a.FirstLogin? ==> a.id !in service.users
    requires a.ReturningLogin? ==> a.id in service.users
    modifies service`users, service`platformAdmins, service`audit
    ensures State(service.users, service.platformAdmins) ==
            Apply(service.mode, State(old(service.users), old(service.platformAdmins)), a)
  {
    match a {
      case FirstLogin(id, login, isOrgOwner, lead, developer) =>
        SettleLogin(service, id, login, isOrgOwner, lead, developer);
      case ReturningLogin(id, login, lead, developer) =>
        SettleLogin(service, id, login, false, lead, developer);
      case Membership(id, lead, developer) =>
        var _ := service.SyncRoleForUser(id, false, lead, developer);
      case Sweep(rosters) =>
        var _, _ := service.ReconcileAll(true, rosters);
      case ConsoleSet(actor, target, role) =>
        var _ := service.SetAppRoleByConsole(actor, target, role);
      case ConsoleReset(actor, target) =>
        var _ := service.ResetAppRoleToGithub(actor, target);
      case Grant(actor, target, role) =>
        if IsSuperAdmin(service.platformAdmins, actor) {
          var _ := service.GrantRole(actor, target, role);
        }
      case Revoke(actor, target) =>
        if IsSuperAdmin(service.platformAdmins, actor) {
          var _ := service.RevokeRole(actor, target);
        }
    }
  }

  predicate Automatic(a: Action) {
    a.FirstLogin? || a.ReturningLogin? || a.Membership? || a.Sweep?
  }

  predicate IsAdmin(s: State, id: string) {
    id in s.users && s.users[id].role == Admin
  }

  /** A console edit of this user by somebody who is a super-admin at that moment. */
  predicate SuperEdit(s: State, a: Action, id: string) {
    a.ConsoleSet? && a.target == id && IsSuperAdmin(s.platformAdmins, a.actor)
  }

  // ----- Steps -----

  /** Logins, webhooks and sweeps never touch the role of a pinned user and never make or
      unmake an admin among the existing users. */
  lemma AutomaticStepIsSafe(mode: Mode, s: State, a: Action, u: string)
    requires Automatic(a) && u in s.users
    ensures var s' := Apply(mode, s, a);
            && s'.platformAdmins == s.platformAdmins && u in s'.users
            && (s.users[u].source == Manual ==> s'.users[u].role == s.users[u].role && s'.users[u].source == Manual)
            && (IsAdmin(s', u) <==> IsAdmin(s, u))
  {
  }

  lemma StepKeepsAdmins(mode: Mode, s: State, a: Action, u: string)
    requires u in s.users && !SuperEdit(s, a, u)
    ensures u in Apply(mode, s, a).users
    ensures IsAdmin(Apply(mode, s, a), u) <==> IsAdmin(s, u)
  {
  }

  /** Outside `Enforce` no login, webhook or sweep touches an existing user's role or source. */
  lemma OnlyEnforceSyncs(mode: Mode, s: State, a: Action, u: string)
    requires mode != Enforce && Automatic(a) && u in s.users
    ensures var s' := Apply(mode, s, a);
            u in s'.users && s'.users[u].role == s.users[u].role && s'.users[u].source == s.users[u].source
  {
  }

  /** The role of a first login: admin for an organisation owner, else, unless off, lead for
      a yes on leads, and member in all other cases, readable or not. */
  lemma FirstLoginRole(mode: Mode, s: State, id: string, login: string, isOrgOwner: bool, lead: Answer, developer: Answer)
    requires id !in s.users
    ensures var s' := Apply(mode, s, FirstLogin(id, login, isOrgOwner, lead, developer));
            && s'.users.Keys == s.users.Keys + {id} && s'.platformAdmins == s.platformAdmins
            && s'.users[id].login == Some(login) && s'.users[id].source == GithubTeam && !s'.users[id].archived
            && (s'.users[id].role == Admin <==> isOrgOwner)
            && (s'.users[id].role == Lead <==> !isOrgOwner && mode != Off && lead == Yes)
  {
  }

  // ----- Runs -----

  /** Over any run, whether an existing user is an admin changes only through a console
      edit of that user by a super-admin; resetting the user to GitHub makes no difference. */
  lemma {:induction false} AdminsChangeOnlyBySuperAdmin(mode: Mode, s: State, actions: seq<Action>, u: string)
    requires u in s.users
    requires forall i :: 0 <= i < |actions| ==> !SuperEdit(Run(mode, s, actions[..i]), actions[i], u)
    ensures u in Run(mode, s, actions).users
    ensures IsAdmin(Run(mode, s, actions), u) <==> IsAdmin(s, u)
  {
    if actions != [] {
      var n := |actions| - 1;
      var init := actions[..n];
      forall i | 0 <= i < n ensures !SuperEdit(Run(mode, s, init[..i]), init[i], u) {
        assert init[..i] == actions[..i];
        assert !SuperEdit(Run(mode, s, actions[..i]), actions[i], u);
      }
      AdminsChangeOnlyBySuperAdmin(mode, s, init, u);
      StepKeepsAdmins(mode, Run(mode, s, init), actions[n], u);
    }
  }

  /** Over any run of logins, webhooks and sweeps outside `Enforce`, nobody's role or source
      changes. */
  lemma {:induction false} NothingSyncsOutsideEnforce(mode: Mode, s: State, actions: seq<Action>, u: string)
    requires mode != Enforce && u in s.users && forall a :: a in actions ==> Automatic(a)
    ensures var s' := Run(mode, s, actions);
            u in s'.users && s'.users[u].role == s.users[u].role && s'.users[u].source == s.users[u].source
  {
    if actions != [] {
      var n := |actions| - 1;
      NothingSyncsOutsideEnforce(mode, s, actions[..n], u);
      assert actions[n] in actions;
      OnlyEnforceSyncs(mode, Run(mode, s, actions[..n]), actions[n], u);
    }
  }

  predicate ConsoleEdits(a: Action, u: string) {
    (a.ConsoleSet? || a.ConsoleReset?) && a.target == u
  }

  /** A pinned role survives any run in which nobody edits that user in the console. */
  lemma {:induction false} PinnedRoleSurvives(mode: Mode, s: State, actions: seq<Action>, u: string)
    requires u in s.users && s.users[u].source == Manual
    requires forall a :: a in actions ==> !ConsoleEdits(a, u)
    ensures var s' := Run(mode, s, actions);
            u in s'.users && s'.users[u].role == s.users[u].role && s'.users[u].source == Manual
  {
    if actions != [] {
      var n := |actions| - 1;
      PinnedRoleSurvives(mode, s, actions[..n], u);
      assert actions[n] in actions;
      if Automatic(actions[n]) {
        AutomaticStepIsSafe(mode, Run(mode, s, actions[..n]), actions[n], u);
      }
    }
  }

  /** Somebody always remains a super-admin. */
  lemma {:induction false} SuperAdminsNeverRunOut(mode: Mode, s: State, actions: seq<Action>)
    requires SuperAdmins(s.platformAdmins) != {}
    ensures SuperAdmins(Run(mode, s, actions).platformAdmins) != {}
  {
    if actions != [] {
      var n := |actions| - 1;
      SuperAdminsNeverRunOut(mode, s, actions[..n]);
      var before, a := Run(mode, s, actions[..n]), actions[n];
      var after := Apply(mode, before, a);
      if (a.Grant? || a.Revoke?) && IsSuperAdmin(before.platformAdmins, a.actor) {
        assert IsSuperAdmin(after.platformAdmins, a.actor);
        assert a.actor in SuperAdmins(after.platformAdmins);
      }
    }
  }

  /** The route guard is needed: the grant operation by itself, called by somebody else,
      leaves no super-admin exactly when it re-grants the only one as a plain admin. */
  lemma GrantCanDemoteTheLastSuperAdmin(users: Users, admins: PlatformAdmins, actor: string, target: string, role: PlatformRole)
    requires GrantResult(users, actor, target) == Done
    ensures SuperAdmins(admins[target := role]) == {} <==> SuperAdmins(admins) <= {target} && role == PlatformAdmin
  {
    var after := admins[target := role];
    if SuperAdmins(after) == {} {
      assert target !in SuperAdmins(after);
      forall id | id in SuperAdmins(admins) ensures id == target {
        assert id !in SuperAdmins(after);
      }
    }
    if SuperAdmins(admins) <= {target} && role == PlatformAdmin {
      forall id ensures id !in SuperAdmins(after) {
        assert id in SuperAdmins(after) ==> id in SuperAdmins(admins);
      }
    }
  }

  // ----- The sweep and the per-user check -----

  /** What the sync makes of the answers, against where the lead roster puts the user. */
  predicate ResolvesLike(lead: Answer, developer: Answer, onRoster: bool, role: AppRole) {
    if lead == Unreadable && developer == Yes then !onRoster
    else if lead == Yes || (lead == No && developer != Unreadable) then true
    else role == if onRoster then Lead else Member
  }

  /** With any lead answer the roster does not contradict and any developer answer, the sync
      leaves a synced user as the sweep does iff the user is an admin or: with an unreadable
      lead check and a yes on developers, the roster does not list the user; with answers
      that resolve nothing, the user's role already is the roster's; and always otherwise. */
  lemma SweepAgreesWithSync(users: Users, leads: seq<string>, id: string, lead: Answer, developer: Answer)
    requires id in users && IsSynced(users[id])
    requires lead == Yes ==> OnRoster(users[id].login.value, leads)
    requires lead == No ==> !OnRoster(users[id].login.value, leads)
    ensures AfterSync(Enforce, users, id, ResolveRoleFromTeams(lead, developer))[id] == AfterSweep(users, leads)[id]
       <==> users[id].role == Admin || ResolvesLike(lead, developer, OnRoster(users[id].login.value, leads), users[id].role)
  {
  }

  /** So a lead on the roster whose lead check fails is demoted at sign-in by a developer
      check that succeeds, and reinstated by the next sweep. */
  lemma UnreadableLeadIsDemoted(users: Users, leads: seq<string>, id: string)
    requires id in users && IsSynced(users[id]) && users[id].role == Lead && OnRoster(users[id].login.value, leads)
    ensures var synced := AfterSync(Enforce, users, id, ResolveRoleFromTeams(Unreadable, Yes));
            && synced[id].role == Member && AfterSweep(users, leads)[id].role == Lead
            && AfterSweep(synced, leads)[id] == users[id]
  {
  }

  /** A second sweep over the same roster changes nobody. */
  lemma SecondSweepIsIdle(users: Users, leads: seq<string>)
    ensures AfterSweep(AfterSweep(users, leads), leads) == AfterSweep(users, leads)
    ensures SweepChanges(AfterSweep(users, leads), leads) == {}
  {
  }

  /** The sweep's comment promises to give up when either roster is empty; it gives up only
      when both are.  With an empty lead roster and a non-empty developer roster it leaves
      everybody's role alone iff there was no synced lead to demote. */
  lemma EmptyLeadRosterDemotes(users: Users, developers: seq<string>)
    requires developers != []
    ensures var s' := Apply(Enforce, State(users, map[]), Sweep(Some(Rosters([], developers))));
            && (forall id :: id in users && IsSynced(users[id]) && users[id].role == Lead ==> s'.users[id].role == Member)
            && (s'.users == users <==> forall id :: id in users && IsSynced(users[id]) ==> users[id].role != Lead)
  {
  }

  /** Reset to GitHub does not hand an admin over to GitHub: after the reset every sync
      without ownership, and every sweep, leaves the admin an admin. */
  lemma ResetAdminStaysAdmin(mode: Mode, s: State, actor: string, u: string, actions: seq<Action>)
    requires IsAdmin(s, u)
    requires forall a :: a in actions ==> Automatic(a)
    ensures IsAdmin(Run(mode, Apply(mode, s, ConsoleReset(actor, u)), actions), u)
  {
    var s' := Apply(mode, s, ConsoleReset(actor, u));
    forall i | 0 <= i < |actions| ensures !SuperEdit(Run(mode, s', actions[..i]), actions[i], u) {
      assert actions[i] in actions;
    }
    AdminsChangeOnlyBySuperAdmin(mode, s', actions, u);
  }
}
