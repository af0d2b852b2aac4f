/** Roles derived from GitHub teams and edited in the Admin Console: the role table, the
    sync service and the console operations. */
module TeamRoles {
  import opened Sequences
  import opened Text

  datatype AppRole = Admin | Lead | Member

  datatype Source = GithubTeam | Manual

  datatype PlatformRole = PlatformAdmin | SuperAdmin

  datatype Mode = Off | Seed | Enforce

  /** What a team membership check answered; unreadable is not no. */
  datatype Answer = Yes | No | Unreadable

  datatype User = User(login: Option<string>, role: AppRole, source: Source, archived: bool)

  type Users = map<string, User>

  type PlatformAdmins = map<string, PlatformRole>

  datatype SyncOutcome = Disabled | Pinned(role: AppRole) | Unknown | Unchanged(role: AppRole)
                       | Updated(from: AppRole, to: AppRole)

  datatype Audit = RoleSynced(user: string, from: AppRole, to: AppRole)
                 | RoleSet(actor: string, user: string, role: AppRole)
                 | RoleReset(actor: string, user: string, previous: AppRole)
                 | PlatformGranted(actor: string, user: string, platformRole: PlatformRole)
                 | PlatformRevoked(actor: string, user: string)

  datatype ConsoleResult = Done | BadRequest | NotFound | Forbidden

  // ----- Deciding -----

  function ResolveRoleFromTeams(lead: Answer, developer: Answer): Option<AppRole> {
    if lead == Yes then Some(Lead)
    else if developer == Yes then Some(Member)
    else if lead == No && developer == No then Some(Member)
    else None
  }

  /** A yes on leads makes a lead; a yes on developers, or two noes, a member; anything else
      tells nothing. */
  lemma ResolvedRole(lead: Answer, developer: Answer)
    ensures ResolveRoleFromTeams(lead, developer) == Some(Lead) <==> lead == Yes
    ensures ResolveRoleFromTeams(lead, developer) == Some(Member) <==>
              lead != Yes && (developer == Yes || (lead == No && developer == No))
    ensures ResolveRoleFromTeams(lead, developer) != Some(Admin)
  {
  }

  function Derived(isOrgOwner: bool, lead: Answer, developer: Answer): Option<AppRole> {
    if isOrgOwner then Some(Admin) else ResolveRoleFromTeams(lead, developer)
  }

  function ResolveSeedRole(mode: Mode, isOrgOwner: bool, lead: Answer, developer: Answer): Option<AppRole> {
    if mode == Off then None else Derived(isOrgOwner, lead, developer)
  }

  /** The four safety rules, on the stored role and its provenance. */
  function Decide(mode: Mode, role: AppRole, source: Source, derived: Option<AppRole>): SyncOutcome {
    if mode != Enforce then Disabled
    else if source == Manual then Pinned(role)
    else if derived == None then Unknown
    else if role == Admin && derived.value != Admin then Unchanged(role)
    else if derived.value == role then Unchanged(role)
    else Updated(role, derived.value)
  }

  /** A missing user reads as a synced member. */
  function RoleOf(users: Users, id: string): AppRole {
    if id in users then users[id].role else Member
  }

  function SourceOf(users: Users, id: string): Source {
    if id in users then users[id].source else GithubTeam
  }

  function WithRole(users: Users, id: string, role: AppRole, source: Source): Users {
    if id in users then users[id := users[id].(role := role, source := source)] else users
  }

  function AfterSync(mode: Mode, users: Users, id: string, derived: Option<AppRole>): Users {
    var outcome := Decide(mode, RoleOf(users, id), SourceOf(users, id), derived);
    if outcome.Updated? then WithRole(users, id, outcome.to, GithubTeam) else users
  }

  function SyncAudit(id: string, outcome: SyncOutcome): seq<Audit> {
    if outcome.Updated? then [RoleSynced(id, outcome.from, outcome.to)] else []
  }

  // ----- The sweep -----

  predicate IsSynced(u: User) {
    u.source == GithubTeam && !u.archived && u.login.Some?
  }

  predicate OnRoster(login: string, roster: seq<string>) {
    exists m :: m in roster && Lower(m) == Lower(login)
  }

  function SweptRole(u: User, leads: seq<string>): AppRole
    requires u.login.Some?
  {
    if OnRoster(u.login.value, leads) then Lead else Member
  }

  function SweptUser(u: User, leads: seq<string>): User {
    if IsSynced(u) && u.role != Admin then u.(role := SweptRole(u, leads)) else u
  }

  function SweptOn(users: Users, leads: seq<string>, ids: set<string>): Users {
    map id | id in users :: if id in ids then SweptUser(users[id], leads) else users[id]
  }

  function AfterSweep(users: Users, leads: seq<string>): Users {
    map id | id in users :: SweptUser(users[id], leads)
  }

  function LowerSet(roster: seq<string>): (r: set<string>)
    ensures forall login :: OnRoster(login, roster) <==> Lower(login) in r
  {
    var r := set m | m in roster :: Lower(m);
    assert forall login :: Lower(login) in r ==> exists m :: m in roster && Lower(m) == Lower(login);
    r
  }

  /** The users whose row the sweep changes. */
  function SweepChanges(users: Users, leads: seq<string>): set<string> {
    set id | id in users && SweptUser(users[id], leads) != users[id]
  }

  function AuditedUsers(entries: seq<Audit>): seq<string>
    requires forall e :: e in entries ==> e.RoleSynced?
  {
    seq(|entries|, i requires 0 <= i < |entries| => entries[i].user)
  }

  /** One audit row per changed user, naming the old and the new role. */
  ghost predicate AuditsExactly(entries: seq<Audit>, before: Users, after: Users, changed: set<string>) {
    && (forall e :: e in entries ==> e.RoleSynced?)
    && NoRepeats(AuditedUsers(entries))
    && (forall id :: id in AuditedUsers(entries) <==> id in changed)
    && forall e :: e in entries ==> e.user in before && e.user in after
                                    && e.from == before[e.user].role && e.to == after[e.user].role
  }

  /** Logins are matched without regard to case. */
  predicate HasLogin(users: Users, id: string, login: string) {
    id in users && users[id].login.Some? && Lower(users[id].login.value) == Lower(login)
  }

  datatype SweepResult = SweepDisabled | SweepUnreadable | SweepCompleted(checked: nat, updated: nat)

  /** What the two roster reads gave; none when a read or the token failed. */
  datatype Rosters = Rosters(leads: seq<string>, developers: seq<string>)

  // ----- The service -----

  class RoleService {
    var users: Users
    var platformAdmins: PlatformAdmins
    var audit: seq<Audit>
    const mode: Mode

    constructor (mode: Mode, users: Users, platformAdmins: PlatformAdmins)
      ensures this.mode == mode && this.users == users && this.platformAdmins == platformAdmins && audit == []
    {
      this.mode, this.users, this.platformAdmins, audit := mode, users, platformAdmins, [];
    }

    method SetAppRole(id: string, role: AppRole, source: Source)
      modifies `users
      ensures users == WithRole(old(users), id, role, source)
    {
      if id in users {
        users := users[id := users[id].(role := role, source := source)];
      }
    }

    method SyncRoleForUser(id: string, isOrgOwner: bool, lead: Answer, developer: Answer) returns (outcome: SyncOutcome)
      modifies `users, `audit
      ensures var derived := Derived(isOrgOwner, lead, developer);
              && outcome == Decide(mode, RoleOf(old(users), id), SourceOf(old(users), id), derived)
              && users == AfterSync(mode, old(users), id, derived)
      ensures audit == old(audit) + SyncAudit(id, outcome)
      ensures mode != Enforce ==> outcome == Disabled && users == old(users) && audit == old(audit)
      ensures outcome == Disabled ==> mode != Enforce
      ensures users == old(users) || (mode == Enforce && id in users && users == old(users)[id := users[id]])
      ensures id in old(users) ==>
                && id in users && users[id] == old(users)[id].(role := users[id].role)
                && (users[id].role != old(users)[id].role <==> outcome.Updated?)
                && (outcome.Updated? ==>
                      && outcome == Updated(old(users)[id].role, users[id].role) && mode == Enforce && old(users)[id].source == GithubTeam
                      && (old(users)[id].role == Admin ==> isOrgOwner)
                      && (users[id].role == Admin <==> isOrgOwner)
                      && (users[id].role == Lead <==> !isOrgOwner && lead == Yes)
                      && audit == old(audit) + [RoleSynced(id, old(users)[id].role, users[id].role)])
                && (outcome.Pinned? <==> mode == Enforce && old(users)[id].source == Manual)
                && (outcome.Unknown? <==> mode == Enforce && old(users)[id].source == GithubTeam && !isOrgOwner
                                          && lead != Yes && developer != Yes && (lead == Unreadable || developer == Unreadable))
      ensures !outcome.Updated? ==> audit == old(audit)
      ensures id !in old(users) && mode == Enforce ==>
                !outcome.Pinned? && users == old(users)
                && (outcome.Updated? <==> isOrgOwner || lead == Yes) && (outcome.Updated? ==> outcome.from == Member)
    {
      if mode != Enforce {
        return Disabled;
      }
      var currentRole, source := RoleOf(users, id), SourceOf(users, id);
      if source == Manual {
        return Pinned(currentRole);
      }
      var derived := Derived(isOrgOwner, lead, developer);
      if derived.None? {
        return Unknown;
      }
      if currentRole == Admin && derived.value != Admin {
        return Unchanged(currentRole);
      }
      if derived.value == currentRole {
        return Unchanged(derived.value);
      }
      SetAppRole(id, derived.value, GithubTeam);
      audit := audit + [RoleSynced(id, currentRole, derived.value)];
      outcome := Updated(currentRole, derived.value);
    }

    method FindUserIdByGithubLogin(login: string) returns (id: Option<string>)
      ensures id.Some? ==> HasLogin(users, id.value, login)
      ensures id.Some? ==> id.value in users && users[id.value].login.Some?
                           && Lower(users[id.value].login.value) == Lower(login)
      ensures id.None? ==> forall u :: !HasLogin(users, u, login)
    {
      var matches := set u | u in users && HasLogin(users, u, login);
      if matches == {} {
        assert forall u :: HasLogin(users, u, login) ==> u in matches;
        return None;
      }
      var u :| u in matches;
      id := Some(u);
    }

    /** A membership change on one of the two role teams re-derives the affected user; on
        any other team, and for a login never seen here, it changes nothing. */
    method HandleMembershipEvent(login: string, slug: string, leadSlug: string, developerSlug: string,
                                 tokenMinted: bool, lead: Answer, developer: Answer) returns (id: Option<string>)
      modifies `users, `audit
      ensures id.Some? <==> mode == Enforce && Lower(slug) in {Lower(leadSlug), Lower(developerSlug)} && tokenMinted
                            && exists u :: HasLogin(old(users), u, login)
      ensures id.None? ==> users == old(users) && audit == old(audit)
      ensures id.Some? ==> HasLogin(old(users), id.value, login)
      ensures id.Some? ==>
                var derived := ResolveRoleFromTeams(lead, developer);
                var outcome := Decide(mode, RoleOf(old(users), id.value), SourceOf(old(users), id.value), derived);
                && users == AfterSync(mode, old(users), id.value, derived)
                && audit == old(audit) + SyncAudit(id.value, outcome)
    {
      if mode != Enforce {
        return None;
      }
      if Lower(slug) != Lower(leadSlug) && Lower(slug) != Lower(developerSlug) {
        return None;
      }
      id := FindUserIdByGithubLogin(login);
      if id.None? || !tokenMinted {
        return None;
      }
      var _ := SyncRoleForUser(id.value, false, lead, developer);
    }

    method ListGithubTeamSyncedUsers() returns (ids: seq<string>)
      ensures NoRepeats(ids) && forall id :: id in ids <==> id in users && IsSynced(users[id])
    {
      var rest := set id | id in users && IsSynced(users[id]);
      ghost var all := rest;
      ids := [];
      while rest != {}
        invariant rest <= all && NoRepeats(ids)
        invariant forall id :: id in ids <==> id in all - rest
        decreases rest
      {
        var id :| id in rest;
        assert id !in ids;
        ids := ids + [id];
        rest := rest - {id};
      }
    }

    /** One iteration of the sweep's loop. */
    method SweepOne(id: string, u: User, leads: set<string>) returns (changed: bool)
      requires id in users && users[id] == u && IsSynced(u)
      modifies `users, `audit
      ensures var role := if Lower(u.login.value) in leads then Lead else Member;
              && changed == (u.role != Admin && role != u.role)
              && users == (if changed then old(users)[id := u.(role := role)] else old(users))
              && audit == old(audit) + if changed then [RoleSynced(id, u.role, role)] else []
    {
      if u.role == Admin {
        return false;
      }
      var derived := if Lower(u.login.value) in leads then Lead else Member;
      if derived == u.role {
        return false;
      }
      SetAppRole(id, derived, GithubTeam);
      audit := audit + [RoleSynced(id, u.role, derived)];
      changed := true;
    }

    ghost predicate SweptThrough(before: Users, auditBefore: seq<Audit>, leads: seq<string>, ids: set<string>, entries: seq<Audit>)
      reads this
    {
      && users == SweptOn(before, leads, ids)
      && audit == auditBefore + entries
      && AuditsExactly(entries, before, AfterSweep(before, leads), SweepChanges(before, leads) * ids)
    }

    method SweepNext(id: string, u: User, roster: set<string>, leads: seq<string>, ghost before: Users,
                     ghost auditBefore: seq<Audit>, ghost ids: set<string>, ghost entries: seq<Audit>)
      returns (changed: bool, ghost entries': seq<Audit>)
      requires SweptThrough(before, auditBefore, leads, ids, entries)
      requires id in before && before[id] == u && IsSynced(u) && id !in ids && roster == LowerSet(leads)
      modifies `users, `audit
      ensures SweptThrough(before, auditBefore, leads, ids + {id}, entries')
      ensures |entries'| == |entries| + if changed then 1 else 0
    {
      SweptOneMore(before, leads, ids, id);
      changed := SweepOne(id, u, roster);
      entries' := entries;
      var all := SweepChanges(before, leads);
      if changed {
        var entry := RoleSynced(id, u.role, SweptRole(u, leads));
        assert id in all && all * (ids + {id}) == all * ids + {id};
        AuditOneMore(entries, before, AfterSweep(before, leads), all * ids, entry);
        entries' := entries + [entry];
        assert auditBefore + entries + [entry] == auditBefore + entries';
      } else {
        assert id !in all && all * (ids + {id}) == all * ids;
        assert audit + [] == audit;
      }
    }

    method SweepUsers(ids: seq<string>, leads: seq<string>) returns (updated: nat, ghost entries: seq<Audit>)
      requires NoRepeats(ids) && forall id :: id in ids ==> id in users && IsSynced(users[id])
      modifies `users, `audit
      ensures SweptThrough(old(users), old(audit), leads, SetOf(ids), entries) && updated == |entries|
    {
      ghost var before, auditBefore := users, audit;
      var roster := LowerSet(leads);
      var rows := users;
      updated, entries := 0, [];
      assert SweptOn(before, leads, {}) == before && SetOf(ids[..0]) == {};
      for i := 0 to |ids|
        invariant SweptThrough(before, auditBefore, leads, SetOf(ids[..i]), entries) && updated == |entries|
      {
        OneMoreId(ids, i);
        var changed;
        changed, entries := SweepNext(ids[i], rows[ids[i]], roster, leads, before, auditBefore, SetOf(ids[..i]), entries);
        updated := updated + if changed then 1 else 0;
      }
      assert ids[..|ids|] == ids;
    }

    /** The sweep gives up only when both rosters are empty.  A completed sweep leaves every
        user where the lead roster puts them and audits exactly the changed ones. */
    method ReconcileAll(installationKnown: bool, rosters: Option<Rosters>) returns (result: SweepResult, ghost entries: seq<Audit>)
      modifies `users, `audit
      ensures result.SweepDisabled? <==> mode != Enforce
      ensures result.SweepCompleted? <==>
                mode == Enforce && installationKnown && rosters.Some?
                && (rosters.value.leads != [] || rosters.value.developers != [])
      ensures audit == old(audit) + entries
      ensures !result.SweepCompleted? ==> users == old(users) && entries == []
      ensures result.SweepCompleted? ==>
                && users == AfterSweep(old(users), rosters.value.leads)
                && AuditsExactly(entries, old(users), users, SweepChanges(old(users), rosters.value.leads))
                && result.updated == |entries|
                && forall id :: id in old(users) ==>
                     var u, u' := old(users)[id], users[id];
                     if u.source == GithubTeam && !u.archived && u.login.Some? && u.role != Admin
                     then u' == u.(role := u'.role) && u'.role != Admin
                          && (u'.role == Lead <==> exists m :: m in rosters.value.leads && Lower(m) == Lower(u.login.value))
                     else u' == u
    {
      entries := [];
      if mode != Enforce {
        return SweepDisabled, [];
      }
      if !installationKnown || rosters.None? {
        return SweepUnreadable, [];
      }
      if |rosters.value.leads| == 0 && |rosters.value.developers| == 0 {
        return SweepUnreadable, [];
      }
      var ids := ListGithubTeamSyncedUsers();
      SweptAll(users, rosters.value.leads, SetOf(ids));
      var updated;
      updated, entries := SweepUsers(ids, rosters.value.leads);
      result := SweepCompleted(|ids|, updated);
    }

    // ----- The Admin Console -----

    method SetAppRoleByConsole(actor: string, target: string, role: AppRole) returns (result: ConsoleResult)
      modifies `users, `audit
      ensures result == ConsoleSetResult(old(users), platformAdmins, actor, target, role)
      ensures result == BadRequest <==> actor == target && role != Admin
      ensures result == NotFound <==> target !in old(users) && (actor == target ==> role == Admin)
      ensures target in users && result == Done ==> users[target] == old(users)[target].(role := role, source := Manual)
      ensures forall id :: id in old(users) && id != target ==> id in users && users[id] == old(users)[id]
      ensures result == Done <==>
                && target in old(users) && (actor == target ==> role == Admin)
                && (role == Admin || old(users)[target].role == Admin ==> IsSuperAdmin(platformAdmins, actor))
      ensures (exists id :: id in old(users) && id in users && (users[id].role == Admin) != (old(users)[id].role == Admin)) ==>
                IsSuperAdmin(platformAdmins, actor)
      ensures users == if result == Done then WithRole(old(users), target, role, Manual) else old(users)
      ensures audit == old(audit) + if result == Done then [RoleSet(actor, target, role)] else []
    {
      if actor == target && role != Admin {
        return BadRequest;
      }
      if target !in users {
        return NotFound;
      }
      var involvesAdminTier := role == Admin || RoleOf(users, target) == Admin;
      if involvesAdminTier && !IsSuperAdmin(platformAdmins, actor) {
        return Forbidden;
      }
      SetAppRole(target, role, Manual);
      audit := audit + [RoleSet(actor, target, role)];
      result := Done;
    }

    method ResetAppRoleToGithub(actor: string, target: string) returns (result: ConsoleResult)
      modifies `users, `audit
      ensures result == ConsoleResetResult(old(users), platformAdmins, actor, target)
      ensures result == NotFound <==> target !in old(users)
      ensures result != BadRequest
      ensures result == Done ==> users == old(users)[target := old(users)[target].(source := GithubTeam)]
      ensures result == Done <==>
                target in old(users) && (old(users)[target].role == Admin ==> IsSuperAdmin(platformAdmins, actor))
      ensures forall id :: id in old(users) ==> id in users && users[id].role == old(users)[id].role
      ensures users == if result == Done then WithRole(old(users), target, RoleOf(old(users), target), GithubTeam)
                       else old(users)
      ensures audit == old(audit) + if result == Done then [RoleReset(actor, target, RoleOf(old(users), target))] else []
    {
      if target !in users {
        return NotFound;
      }
      var current := RoleOf(users, target);
      if current == Admin && !IsSuperAdmin(platformAdmins, actor) {
        return Forbidden;
      }
      users := users[target := users[target].(source := GithubTeam)];
      audit := audit + [RoleReset(actor, target, current)];
      result := Done;
    }

    method GrantRole(actor: string, target: string, role: PlatformRole) returns (result: ConsoleResult)
      modifies `platformAdmins, `audit
      ensures result == GrantResult(users, actor, target)
      ensures result == BadRequest <==> actor == target
      ensures result != Forbidden
      ensures result == Done <==> actor != target && target in users
      ensures actor in old(platformAdmins) ==> actor in platformAdmins && platformAdmins[actor] == old(platformAdmins)[actor]
      ensures platformAdmins == if result == Done then old(platformAdmins)[target := role] else old(platformAdmins)
      ensures audit == old(audit) + if result == Done then [PlatformGranted(actor, target, role)] else []
    {
      if actor == target {
        return BadRequest;
      }
      if target !in users {
        return NotFound;
      }
      platformAdmins := platformAdmins[target := role];
      audit := audit + [PlatformGranted(actor, target, role)];
      result := Done;
    }

    method RevokeRole(actor: string, target: string) returns (result: ConsoleResult)
      modifies `platformAdmins, `audit
      ensures result == RevokeResult(old(platformAdmins), actor, target)
      ensures result == Done <==>
                actor != target && target in old(platformAdmins)
                && (old(platformAdmins)[target] == SuperAdmin ==>
                      exists id :: id != target && id in old(platformAdmins) && old(platformAdmins)[id] == SuperAdmin)
      ensures result == NotFound <==> actor != target && target !in old(platformAdmins)
      ensures result != Forbidden
      ensures SuperAdmins(old(platformAdmins)) != {} ==> SuperAdmins(platformAdmins) != {}
      ensures actor in old(platformAdmins) ==> actor in platformAdmins && platformAdmins[actor] == old(platformAdmins)[actor]
      ensures platformAdmins == if result == Done then old(platformAdmins) - {target} else old(platformAdmins)
      ensures audit == old(audit) + if result == Done then [PlatformRevoked(actor, target)] else []
    {
      if actor == target {
        return BadRequest;
      }
      if target !in platformAdmins {
        return NotFound;
      }
      StillSuperAdmins(platformAdmins, target);
      if platformAdmins[target] == SuperAdmin {
        var superAdmins := |SuperAdmins(platformAdmins)|;
        if superAdmins <= 1 {
          return BadRequest;
        }
      }
      platformAdmins := platformAdmins - {target};
      audit := audit + [PlatformRevoked(actor, target)];
      result := Done;
    }
  }

  predicate IsSuperAdmin(admins: PlatformAdmins, id: string) {
    id in admins && admins[id] == SuperAdmin
  }

  function SuperAdmins(admins: PlatformAdmins): set<string> {
    set id | id in admins && admins[id] == SuperAdmin
  }

  lemma StillSuperAdmins(admins: PlatformAdmins, target: string)
    ensures SuperAdmins(admins - {target}) == SuperAdmins(admins) - {target}
    ensures |SuperAdmins(admins)| > 1 ==> SuperAdmins(admins) - {target} != {}
    ensures target in SuperAdmins(admins) ==>
              (|SuperAdmins(admins)| > 1 <==> exists id :: id != target && id in admins && admins[id] == SuperAdmin)
  {
    var others := SuperAdmins(admins) - {target};
    if id :| id != target && id in admins && admins[id] == SuperAdmin {
      assert id in others;
    } else {
      assert others == {};
    }
    if target in SuperAdmins(admins) && SuperAdmins(admins) - {target} != {} {
      assert |SuperAdmins(admins)| == |SuperAdmins(admins) - {target}| + 1;
    }
    if SuperAdmins(admins) - {target} == {} {
      assert SuperAdmins(admins) <= {target};
      OneAtMost(SuperAdmins(admins), target);
    }
  }

  lemma OneAtMost(s: set<string>, x: string)
    requires s <= {x}
    ensures |s| <= 1
  {
    assert s == {} || s == {x};
  }

  function ConsoleSetResult(users: Users, admins: PlatformAdmins, actor: string, target: string, role: AppRole): ConsoleResult {
    if actor == target && role != Admin then BadRequest
    else if target !in users then NotFound
    else if (role == Admin || users[target].role == Admin) && !IsSuperAdmin(admins, actor) then Forbidden
    else Done
  }

  function ConsoleResetResult(users: Users, admins: PlatformAdmins, actor: string, target: string): ConsoleResult {
    if target !in users then NotFound
    else if users[target].role == Admin && !IsSuperAdmin(admins, actor) then Forbidden
    else Done
  }

  function GrantResult(users: Users, actor: string, target: string): ConsoleResult {
    if actor == target then BadRequest else if target !in users then NotFound else Done
  }

  function RevokeResult(admins: PlatformAdmins, actor: string, target: string): ConsoleResult {
    if actor == target then BadRequest
    else if target !in admins then NotFound
    else if admins[target] == SuperAdmin && |SuperAdmins(admins)| <= 1 then BadRequest
    else Done
  }

  function SetOf(ids: seq<string>): set<string> {
    set id | id in ids
  }

  lemma OneMoreId(ids: seq<string>, i: nat)
    requires NoRepeats(ids) && i < |ids|
    ensures SetOf(ids[..i + 1]) == SetOf(ids[..i]) + {ids[i]} && ids[i] !in SetOf(ids[..i])
  {
    PrefixGrows(ids, i);
  }

  lemma SweptOneMore(users: Users, leads: seq<string>, ids: set<string>, id: string)
    requires id in users && id !in ids
    ensures SweptOn(users, leads, ids)[id] == users[id]
    ensures SweptOn(users, leads, ids + {id}) == SweptOn(users, leads, ids)[id := SweptUser(users[id], leads)]
  {
  }

  lemma SweptAll(users: Users, leads: seq<string>, ids: set<string>)
    requires forall id :: id in ids <==> id in users && IsSynced(users[id])
    ensures SweptOn(users, leads, ids) == AfterSweep(users, leads)
    ensures SweepChanges(users, leads) * ids == SweepChanges(users, leads)
  {
  }

  lemma AuditOneMore(entries: seq<Audit>, before: Users, after: Users, changed: set<string>, e: Audit)
    requires AuditsExactly(entries, before, after, changed)
    requires e.RoleSynced? && e.user !in changed && e.user in before && e.user in after
    requires e.from == before[e.user].role && e.to == after[e.user].role
    ensures AuditsExactly(entries + [e], before, after, changed + {e.user})
  {
    assert AuditedUsers(entries + [e]) == AuditedUsers(entries) + [e.user];
    forall i, j | 0 <= i < j < |entries| + 1 ensures AuditedUsers(entries + [e])[i] != AuditedUsers(entries + [e])[j] {
      assert AuditedUsers(entries + [e])[i] == AuditedUsers(entries)[i];
      assert AuditedUsers(entries)[i] in AuditedUsers(entries);
    }
  }
}
